/** The two importers of the ICRP Publication 107 tables. Files are not opened
    here: each importer receives the lines `std::getline` returns, in order and
    up to end of file, each already split into its whitespace-separated tokens.
    A token read through `operator>>` is modelled positionally: the k-th read
    of a line gets token k when the line has one; otherwise the read fails and
    the target string keeps the value it had, which for `tmp` may come from an
    earlier line. */
module ICRP07Import {
  import opened ICRP07Records
  import opened ICRP07Manager

  /** The conversions the importers call and that are not modelled: the
      text-to-number conversion and the integer read of a row code. */
  datatype Conversions = Conversions(toReal: string -> real, toCode: string -> int)

  /** The MeV unit. Energies are held in MeV internally, so the unit is 1. */
  const MeV: real := 1.0

  /** The k-th `>>` read of a line into a string that currently holds `current`. */
  function Extract(tokens: seq<string>, k: nat, current: string): (r: string)
    ensures k < |tokens| ==> r == tokens[k]
    ensures |tokens| <= k ==> r == current
  {
    if k < |tokens| then tokens[k] else current
  }

  // ---------------------------------------------------------------------------
  // NDX: one decay record per line
  // ---------------------------------------------------------------------------

  /** The daughter lists collected so far on a line, and the value of `tmp`. */
  datatype DaughterScan = DaughterScan(names: seq<string>, ratios: seq<real>, tmp: string)

  /** Up to `slots` (daughter, skipped, ratio) triples read from position `pos`;
      the scan stops as soon as the daughter read yields "0". */
  function ScanDaughters(tokens: seq<string>, pos: nat, slots: nat, toReal: string -> real, acc: DaughterScan)
    : (r: DaughterScan)
    ensures |r.names| - |acc.names| == |r.ratios| - |acc.ratios|
    ensures |acc.names| <= |r.names| <= |acc.names| + slots
    ensures r.names[..|acc.names|] == acc.names && r.ratios[..|acc.ratios|] == acc.ratios
    ensures forall i :: |acc.names| <= i < |r.names| ==> r.names[i] != "0"
    decreases slots
  {
    if slots == 0 then acc
    else
      var daughter := Extract(tokens, pos, acc.tmp);
      if daughter == "0" then acc.(tmp := daughter)
      else
        var ratio := Extract(tokens, pos + 2, daughter);
        ScanDaughters(tokens, pos + 3, slots - 1, toReal,
                      DaughterScan(acc.names + [daughter], acc.ratios + [toReal(ratio)], ratio))
  }

  /** One parsed NDX line: the map key, the record and `tmp` after the line. */
  datatype NDXRow = NDXRow(name: string, decay: DecayData, tmp: string)

  /** Name, half-life and decay mode from the first three tokens, four skipped
      tokens, then at most four daughters; `tmp` carries over from the line before. */
  function ParseNDXLine(tokens: seq<string>, toReal: string -> real, tmp: string): (r: NDXRow)
    ensures r.decay.Valid() && |r.decay.daughterNuclideNames| <= 4
    ensures r.name == (if |tokens| > 0 then tokens[0] else "")
    ensures 2 < |tokens| ==> r.decay.halfLife == tokens[1] && r.decay.decayMode == tokens[2]
  {
    var scan := ScanDaughters(tokens, 7, 4, toReal, DaughterScan([], [], tmp));
    NDXRow(Extract(tokens, 0, ""),
           DecayData(Extract(tokens, 1, ""), Extract(tokens, 2, ""), scan.names, scan.ratios),
           scan.tmp)
  }

  /** The decay map after the lines from index `i` on, each stored under its name. */
  function NDXFrom(lines: seq<seq<string>>, i: nat, toReal: string -> real, tmp: string,
                   db: map<string, DecayData>): map<string, DecayData>
    decreases |lines| - i
  {
    if |lines| <= i then db
    else
      var row := ParseNDXLine(lines[i], toReal, tmp);
      NDXFrom(lines, i + 1, toReal, row.tmp, db[row.name := row.decay])
  }

  /** ImportNDX: the first line is a header; every later line is parsed. */
  function NDXImport(lines: seq<seq<string>>, toReal: string -> real, db: map<string, DecayData>)
    : map<string, DecayData>
  {
    NDXFrom(lines, 1, toReal, "", db)
  }

  /** The map key a line is stored under. */
  function NDXName(tokens: seq<string>): string
  {
    Extract(tokens, 0, "")
  }

  /** A decay record as the importer can produce it. */
  predicate Bounded(d: DecayData)
  {
    d.Valid() && |d.daughterNuclideNames| <= 4
  }

  predicate AllBounded(m: map<string, DecayData>)
  {
    forall n :: n in m ==> Bounded(m[n])
  }

  lemma {:induction false} NDXFromBounded(lines: seq<seq<string>>, i: nat, toReal: string -> real, tmp: string,
                                          db: map<string, DecayData>)
    requires AllBounded(db)
    ensures AllBounded(NDXFrom(lines, i, toReal, tmp, db))
    decreases |lines| - i
  {
    if i < |lines| {
      var row := ParseNDXLine(lines[i], toReal, tmp);
      StoreBounded(db, row.name, row.decay);
      NDXFromBounded(lines, i + 1, toReal, row.tmp, db[row.name := row.decay]);
    }
  }

  lemma StoreBounded(db: map<string, DecayData>, name: string, d: DecayData)
    requires AllBounded(db) && Bounded(d)
    ensures AllBounded(db[name := d])
  {
  }

  /** Every record the import stores has as many ratios as daughter names, and
      at most four of them. */
  lemma NDXImportBounded(lines: seq<seq<string>>, toReal: string -> real, db: map<string, DecayData>)
    requires AllBounded(db)
    ensures AllBounded(NDXImport(lines, toReal, db))
  {
    NDXFromBounded(lines, 1, toReal, "", db);
  }

  lemma {:induction false} NDXFromKeys(lines: seq<seq<string>>, i: nat, toReal: string -> real, tmp: string,
                                       db: map<string, DecayData>, n: string)
    ensures n in NDXFrom(lines, i, toReal, tmp, db) <==>
            n in db || exists j :: i <= j < |lines| && NDXName(lines[j]) == n
    decreases |lines| - i
  {
    if i < |lines| {
      var row := ParseNDXLine(lines[i], toReal, tmp);
      NDXFromKeys(lines, i + 1, toReal, row.tmp, db[row.name := row.decay], n);
      if n in db || exists j :: i <= j < |lines| && NDXName(lines[j]) == n {
        if n !in db && n != row.name {
          var j :| i <= j < |lines| && NDXName(lines[j]) == n;
          assert j != i;
        }
      }
    }
  }

  /** The keys after the import are the keys before it and the names of the
      lines after the header, and nothing else. */
  lemma NDXImportKeys(lines: seq<seq<string>>, toReal: string -> real, db: map<string, DecayData>, n: string)
    ensures n in NDXImport(lines, toReal, db) <==>
            n in db || exists j :: 1 <= j < |lines| && NDXName(lines[j]) == n
  {
    NDXFromKeys(lines, 1, toReal, "", db, n);
  }

  /** A token-less line (the last `getline` before end of file returns one when
      the file ends with a newline) is stored under the empty name and leaves
      every other entry as it was. */
  lemma BlankNDXLine(toReal: string -> real, tmp: string, db: map<string, DecayData>)
    ensures var row := ParseNDXLine([], toReal, tmp);
            row.name == "" && row.decay.halfLife == "" && row.decay.decayMode == ""
            && forall n :: n != "" ==> (n in db[row.name := row.decay] <==> n in db)
  {
  }

  /** One decay record as the NDX table writes it. */
  datatype Daughter = Daughter(name: string, skipped: string, ratioText: string)
  datatype NDXEntry = NDXEntry(name: string, halfLife: string, decayMode: string,
                               skipped: seq<string>, daughters: seq<Daughter>)
  {
    /** Four skipped columns, at most four daughters, none named "0". */
    predicate WellFormed()
    {
      |skipped| == 4 && |daughters| <= 4 && forall i :: 0 <= i < |daughters| ==> daughters[i].name != "0"
    }
  }

  function DaughterTokens(ds: seq<Daughter>): seq<string>
  {
    if |ds| == 0 then [] else [ds[0].name, ds[0].skipped, ds[0].ratioText] + DaughterTokens(ds[1..])
  }

  /** The tokens of an entry's line; fewer than four daughters end with "0". */
  function EncodeNDX(e: NDXEntry): seq<string>
  {
    [e.name, e.halfLife, e.decayMode] + e.skipped + DaughterTokens(e.daughters)
    + (if |e.daughters| < 4 then ["0"] else [])
  }

  function DaughterNames(ds: seq<Daughter>): seq<string>
  {
    if |ds| == 0 then [] else [ds[0].name] + DaughterNames(ds[1..])
  }

  function DaughterRatios(ds: seq<Daughter>, toReal: string -> real): seq<real>
  {
    if |ds| == 0 then [] else [toReal(ds[0].ratioText)] + DaughterRatios(ds[1..], toReal)
  }

  /** The record an entry stands for. */
  function Decoded(e: NDXEntry, toReal: string -> real): DecayData
  {
    DecayData(e.halfLife, e.decayMode, DaughterNames(e.daughters), DaughterRatios(e.daughters, toReal))
  }

  lemma {:induction false} ScanEncoded(prefix: seq<string>, ds: seq<Daughter>, slots: nat, toReal: string -> real,
                                       acc: DaughterScan)
    requires |ds| <= slots
    requires forall i :: 0 <= i < |ds| ==> ds[i].name != "0"
    ensures var tokens := prefix + DaughterTokens(ds) + (if |ds| < slots then ["0"] else []);
            var r := ScanDaughters(tokens, |prefix|, slots, toReal, acc);
            r.names == acc.names + DaughterNames(ds) && r.ratios == acc.ratios + DaughterRatios(ds, toReal)
    decreases |ds|, slots
  {
    var tokens := prefix + DaughterTokens(ds) + (if |ds| < slots then ["0"] else []);
    if |ds| == 0 {
      if 0 < slots {
        assert tokens[|prefix|] == "0";
      }
    } else {
      var d := ds[0];
      var prefix' := prefix + [d.name, d.skipped, d.ratioText];
      assert tokens == prefix' + DaughterTokens(ds[1..]) + (if |ds[1..]| < slots - 1 then ["0"] else []);
      assert tokens[|prefix|] == d.name && tokens[|prefix| + 2] == d.ratioText;
      var acc' := DaughterScan(acc.names + [d.name], acc.ratios + [toReal(d.ratioText)], d.ratioText);
      assert ScanDaughters(tokens, |prefix|, slots, toReal, acc)
          == ScanDaughters(tokens, |prefix'|, slots - 1, toReal, acc');
      ScanEncoded(prefix', ds[1..], slots - 1, toReal, acc');
    }
  }

  /** A well-formed entry's line parses back to the entry, whatever `tmp` holds. */
  lemma ParseEncodedNDX(e: NDXEntry, toReal: string -> real, tmp: string)
    requires e.WellFormed()
    ensures ParseNDXLine(EncodeNDX(e), toReal, tmp).name == e.name
    ensures ParseNDXLine(EncodeNDX(e), toReal, tmp).decay == Decoded(e, toReal)
  {
    var prefix := [e.name, e.halfLife, e.decayMode] + e.skipped;
    assert EncodeNDX(e) == prefix + DaughterTokens(e.daughters) + (if |e.daughters| < 4 then ["0"] else []);
    ScanEncoded(prefix, e.daughters, 4, toReal, DaughterScan([], [], tmp));
  }

  /** The map after storing the entries one after the other. */
  function StoredNDX(db: map<string, DecayData>, es: seq<NDXEntry>, toReal: string -> real)
    : map<string, DecayData>
    decreases |es|
  {
    if |es| == 0 then db else StoredNDX(db[es[0].name := Decoded(es[0], toReal)], es[1..], toReal)
  }

  function EncodeNDXLines(es: seq<NDXEntry>): seq<seq<string>>
  {
    if |es| == 0 then [] else [EncodeNDX(es[0])] + EncodeNDXLines(es[1..])
  }

  lemma {:induction false} NDXFromEncoded(pre: seq<seq<string>>, es: seq<NDXEntry>, toReal: string -> real,
                                          tmp: string, db: map<string, DecayData>)
    requires forall i :: 0 <= i < |es| ==> es[i].WellFormed()
    ensures NDXFrom(pre + EncodeNDXLines(es), |pre|, toReal, tmp, db) == StoredNDX(db, es, toReal)
    decreases |es|
  {
    if |es| > 0 {
      var lines := pre + EncodeNDXLines(es);
      var pre' := pre + [EncodeNDX(es[0])];
      assert lines == pre' + EncodeNDXLines(es[1..]);
      assert lines[|pre|] == EncodeNDX(es[0]);
      ParseEncodedNDX(es[0], toReal, tmp);
      var row := ParseNDXLine(lines[|pre|], toReal, tmp);
      NDXFromEncoded(pre', es[1..], toReal, row.tmp, db[row.name := row.decay]);
    }
  }

  /** Round trip: a header followed by the lines of well-formed entries imports
      as those entries, stored in order (a later line with the same name wins). */
  lemma NDXRoundTrip(header: seq<string>, es: seq<NDXEntry>, toReal: string -> real, db: map<string, DecayData>)
    requires forall i :: 0 <= i < |es| ==> es[i].WellFormed()
    ensures NDXImport([header] + EncodeNDXLines(es), toReal, db) == StoredNDX(db, es, toReal)
  {
    NDXFromEncoded([header], es, toReal, "", db);
  }

  // ---------------------------------------------------------------------------
  // RAD: a name line followed by photon rows, block after block
  // ---------------------------------------------------------------------------

  /** One line of the RAD table: its raw text (only its first character is
      looked at) and its tokens. */
  datatype Line = Line(text: string, tokens: seq<string>)

  /** A line whose first character is 'A'..'Z' starts a new nuclide. An empty
      line's first character is the terminating NUL, never a letter. */
  predicate IsNameLine(line: Line)
  {
    |line.text| > 0 && 'A' <= line.text[0] <= 'Z'
  }

  /** Gamma, X-ray and annihilation photons. */
  predicate IsPhotonCode(code: int)
  {
    code == 1 || code == 2 || code == 3
  }

  /** The state of the block reader: `iCode`, `tmp`, `nextName` and the block
      collected so far. */
  datatype Scan = Scan(code: int, tmp: string, nextName: string, block: RadiationData)

  /** One non-name row. `skipBlank` selects the corrected reader, which ignores
      token-less lines; the reader as written processes them with the `iCode`
      and `tmp` left over from the row before. */
  function ReadRow(line: Line, skipBlank: bool, conv: Conversions, s: Scan): (r: Scan)
    ensures r.nextName == s.nextName
    ensures s.block.Valid() ==> r.block.Valid()
    ensures |s.block.photonEnergies| <= |r.block.photonEnergies| <= |s.block.photonEnergies| + 1
    ensures r.block.photonEnergies[..|s.block.photonEnergies|] == s.block.photonEnergies
  {
    if skipBlank && |line.tokens| == 0 then s
    else
      var code := if 0 < |line.tokens| then conv.toCode(line.tokens[0]) else s.code;
      if IsPhotonCode(code) then
        var yieldText := Extract(line.tokens, 1, s.tmp);
        var energyText := Extract(line.tokens, 2, yieldText);
        Scan(code, energyText, s.nextName,
             RadiationData(s.block.photonEnergies + [conv.toReal(energyText) * MeV],
                           s.block.photonYields + [conv.toReal(yieldText)]))
      else s.(code := code)
  }

  /** The inner loop: rows from index `i` up to and including the next name line
      (whose first token becomes `nextName`), or to the end of the lines.
      Returns the index after the block and the reader's state. */
  function ReadBlock(lines: seq<Line>, i: nat, skipBlank: bool, conv: Conversions, s: Scan): (r: (nat, Scan))
    requires i <= |lines|
    ensures i <= r.0 <= |lines| && (i < |lines| ==> i < r.0)
    ensures s.block.Valid() ==> r.1.block.Valid()
    decreases |lines| - i
  {
    if i == |lines| then (i, s)
    else if IsNameLine(lines[i]) then (i + 1, s.(nextName := Extract(lines[i].tokens, 0, s.nextName)))
    else ReadBlock(lines, i + 1, skipBlank, conv, ReadRow(lines[i], skipBlank, conv, s))
  }

  /** The source's `if (!name.empty())` store. */
  function StoreIf(db: map<string, RadiationData>, name: string, d: RadiationData): (r: map<string, RadiationData>)
    ensures name != "" ==> r == db[name := d]
    ensures name == "" ==> r == db
  {
    if name != "" then db[name := d] else db
  }

  /** The outer loop from index `i`: each block is stored under the name read at
      the boundary before it; `iCode` starts at 0 in each block. */
  function RADFrom(lines: seq<Line>, i: nat, skipBlank: bool, conv: Conversions, name: string, tmp: string,
                   db: map<string, RadiationData>): map<string, RadiationData>
    requires i <= |lines|
    decreases |lines| - i
  {
    if i == |lines| then db
    else
      var (j, s) := ReadBlock(lines, i, skipBlank, conv, Scan(0, tmp, name, Empty));
      RADFrom(lines, j, skipBlank, conv, s.nextName, s.tmp, StoreIf(db, name, s.block))
  }

  /** ImportRAD over all lines, from empty `name`, `nextName` and `tmp`. */
  function RADImport(lines: seq<Line>, skipBlank: bool, conv: Conversions, db: map<string, RadiationData>)
    : map<string, RadiationData>
  {
    RADFrom(lines, 0, skipBlank, conv, "", "", db)
  }

  lemma {:induction false} RADFromValid(lines: seq<Line>, i: nat, skipBlank: bool, conv: Conversions, name: string,
                                        tmp: string, db: map<string, RadiationData>)
    requires i <= |lines|
    requires AllValid(db)
    ensures AllValid(RADFrom(lines, i, skipBlank, conv, name, tmp, db))
    decreases |lines| - i
  {
    if i < |lines| {
      var (j, s) := ReadBlock(lines, i, skipBlank, conv, Scan(0, tmp, name, Empty));
      RADFromValid(lines, j, skipBlank, conv, s.nextName, s.tmp, StoreIf(db, name, s.block));
    }
  }

  /** Every stored spectrum has as many yields as energies, in both readers. */
  lemma RADImportValid(lines: seq<Line>, skipBlank: bool, conv: Conversions, db: map<string, RadiationData>)
    requires AllValid(db)
    ensures AllValid(RADImport(lines, skipBlank, conv, db))
  {
    RADFromValid(lines, 0, skipBlank, conv, "", "", db);
  }

  lemma {:induction false} RADFromKeepsEmptyName(lines: seq<Line>, i: nat, skipBlank: bool, conv: Conversions,
                                                 name: string, tmp: string, db: map<string, RadiationData>)
    requires i <= |lines|
    ensures var r := RADFrom(lines, i, skipBlank, conv, name, tmp, db);
            ("" in r <==> "" in db) && ("" in db ==> r[""] == db[""])
    decreases |lines| - i
  {
    if i < |lines| {
      var (j, s) := ReadBlock(lines, i, skipBlank, conv, Scan(0, tmp, name, Empty));
      RADFromKeepsEmptyName(lines, j, skipBlank, conv, s.nextName, s.tmp, StoreIf(db, name, s.block));
    }
  }

  /** Nothing is ever stored under the empty name: the rows before the first
      name line are read and dropped. */
  lemma RADImportKeepsEmptyName(lines: seq<Line>, skipBlank: bool, conv: Conversions, db: map<string, RadiationData>)
    ensures var r := RADImport(lines, skipBlank, conv, db);
            ("" in r <==> "" in db) && ("" in db ==> r[""] == db[""])
  {
    RADFromKeepsEmptyName(lines, 0, skipBlank, conv, "", "", db);
  }

  lemma {:induction false} ReadBlockWithoutNameLine(lines: seq<Line>, i: nat, skipBlank: bool, conv: Conversions,
                                                    s: Scan)
    requires i <= |lines|
    requires forall k :: i <= k < |lines| ==> !IsNameLine(lines[k])
    ensures ReadBlock(lines, i, skipBlank, conv, s).0 == |lines|
    ensures ReadBlock(lines, i, skipBlank, conv, s).1.nextName == s.nextName
    decreases |lines| - i
  {
    if i < |lines| {
      ReadBlockWithoutNameLine(lines, i + 1, skipBlank, conv, ReadRow(lines[i], skipBlank, conv, s));
    }
  }

  /** Lines without any name line store nothing. */
  lemma RADImportWithoutNameLine(lines: seq<Line>, skipBlank: bool, conv: Conversions, db: map<string, RadiationData>)
    requires forall k :: 0 <= k < |lines| ==> !IsNameLine(lines[k])
    ensures RADImport(lines, skipBlank, conv, db) == db
  {
    if 0 < |lines| {
      var init := Scan(0, "", "", Empty);
      ReadBlockWithoutNameLine(lines, 0, skipBlank, conv, init);
      var (j, s) := ReadBlock(lines, 0, skipBlank, conv, init);
      assert RADImport(lines, skipBlank, conv, db) == RADFrom(lines, j, skipBlank, conv, s.nextName, s.tmp, db);
    }
  }

  lemma {:induction false} ReadBlockAgree(lines: seq<Line>, i: nat, conv: Conversions, s: Scan)
    requires i <= |lines|
    requires forall k :: i <= k < |lines| ==> 0 < |lines[k].tokens|
    ensures ReadBlock(lines, i, false, conv, s) == ReadBlock(lines, i, true, conv, s)
    decreases |lines| - i
  {
    if i < |lines| && !IsNameLine(lines[i]) {
      ReadBlockAgree(lines, i + 1, conv, ReadRow(lines[i], true, conv, s));
    }
  }

  lemma {:induction false} RADFromAgree(lines: seq<Line>, i: nat, conv: Conversions, name: string, tmp: string,
                                        db: map<string, RadiationData>)
    requires i <= |lines|
    requires forall k :: i <= k < |lines| ==> 0 < |lines[k].tokens|
    ensures RADFrom(lines, i, false, conv, name, tmp, db) == RADFrom(lines, i, true, conv, name, tmp, db)
    decreases |lines| - i
  {
    if i < |lines| {
      ReadBlockAgree(lines, i, conv, Scan(0, tmp, name, Empty));
      var (j, s) := ReadBlock(lines, i, true, conv, Scan(0, tmp, name, Empty));
      RADFromAgree(lines, j, conv, s.nextName, s.tmp, StoreIf(db, name, s.block));
    }
  }

  /** The two readers differ only on token-less lines: on lines that all
      carry a token, the reader as written stores what the corrected one does. */
  lemma RADImportAgree(lines: seq<Line>, conv: Conversions, db: map<string, RadiationData>)
    requires forall k :: 0 <= k < |lines| ==> 0 < |lines[k].tokens|
    ensures RADImport(lines, false, conv, db) == RADImport(lines, true, conv, db)
  {
    RADFromAgree(lines, 0, conv, "", "", db);
  }

  /** One data row of a block: code, yield and energy columns. */
  datatype Row = Row(code: string, yieldText: string, energyText: string)
  /** One nuclide's block: its name line and its rows. */
  datatype Block = Block(name: string, rows: seq<Row>)

  /** A row line starts with a blank, so it never reads as a name line. */
  function RowLine(row: Row): Line
  {
    Line([' '] + row.code, [row.code, row.yieldText, row.energyText])
  }

  function NameLine(name: string): Line
  {
    Line(name, [name])
  }

  function EncodeRows(rows: seq<Row>): (r: seq<Line>)
    ensures |r| == |rows|
  {
    if |rows| == 0 then [] else [RowLine(rows[0])] + EncodeRows(rows[1..])
  }

  function EncodeBlocks(bs: seq<Block>): seq<Line>
  {
    if |bs| == 0 then [] else [NameLine(bs[0].name)] + EncodeRows(bs[0].rows) + EncodeBlocks(bs[1..])
  }

  /** The spectrum a row contributes: one entry for a photon code, none otherwise. */
  function RowData(row: Row, conv: Conversions): RadiationData
  {
    if IsPhotonCode(conv.toCode(row.code))
    then RadiationData([conv.toReal(row.energyText) * MeV], [conv.toReal(row.yieldText)])
    else Empty
  }

  function Photons(rows: seq<Row>, conv: Conversions): RadiationData
  {
    if |rows| == 0 then Empty else Concat(RowData(rows[0], conv), Photons(rows[1..], conv))
  }

  /** A name the reader recognises and stores. */
  predicate ValidName(name: string)
  {
    0 < |name| && 'A' <= name[0] <= 'Z'
  }

  /** The map after storing the blocks one after the other. */
  function StoredRAD(db: map<string, RadiationData>, bs: seq<Block>, conv: Conversions)
    : map<string, RadiationData>
    decreases |bs|
  {
    if |bs| == 0 then db else StoredRAD(db[bs[0].name := Photons(bs[0].rows, conv)], bs[1..], conv)
  }

  /** The blank line the last `getline` returns when the file ends with a newline. */
  const BlankLine := Line("", [])

  /** An encoded row adds exactly its own contribution to the block. */
  lemma ReadRowEncoded(row: Row, conv: Conversions, s: Scan)
    ensures ReadRow(RowLine(row), true, conv, s).block == Concat(s.block, RowData(row, conv))
  {
    ConcatEmpty(s.block);
  }

  lemma {:induction false} ReadRows(lines: seq<Line>, i: nat, rows: seq<Row>, rest: seq<Line>, conv: Conversions,
                                    s: Scan)
    requires i <= |lines| && lines[i..] == EncodeRows(rows) + rest
    requires (0 < |rest| && IsNameLine(rest[0])) || rest == [BlankLine]
    ensures var r := ReadBlock(lines, i, true, conv, s);
            && r.1.block == Concat(s.block, Photons(rows, conv))
            && (rest == [BlankLine] ==> r.0 == |lines| && r.1.nextName == s.nextName)
            && (rest != [BlankLine] ==>
                  r.0 == i + |rows| + 1 && r.1.nextName == Extract(rest[0].tokens, 0, s.nextName))
    decreases |rows|
  {
    if |rows| == 0 {
      assert lines[i] == rest[0];
      ConcatEmpty(s.block);
      if rest == [BlankLine] {
        assert i + 1 == |lines|;
      }
    } else {
      var row := rows[0];
      assert lines[i] == RowLine(row);
      assert lines[i + 1..] == EncodeRows(rows[1..]) + rest by {
        assert lines[i + 1..] == lines[i..][1..];
      }
      var s' := ReadRow(lines[i], true, conv, s);
      ReadRowEncoded(row, conv, s);
      ReadRows(lines, i + 1, rows[1..], rest, conv, s');
      ConcatAssociative(s.block, RowData(row, conv), Photons(rows[1..], conv));
    }
  }

  lemma {:induction false} RADFromEncoded(lines: seq<Line>, i: nat, name: string, rows: seq<Row>, bs: seq<Block>,
                                          conv: Conversions, tmp: string, db: map<string, RadiationData>)
    requires i <= |lines| && lines[i..] == EncodeRows(rows) + EncodeBlocks(bs) + [BlankLine]
    requires forall k :: 0 <= k < |bs| ==> ValidName(bs[k].name)
    ensures RADFrom(lines, i, true, conv, name, tmp, db) == StoredRAD(StoreIf(db, name, Photons(rows, conv)), bs, conv)
    decreases |bs|
  {
    ConcatEmpty(Photons(rows, conv));
    var init := Scan(0, tmp, name, Empty);
    if |bs| == 0 {
      ReadRows(lines, i, rows, [BlankLine], conv, init);
    } else {
      var b := bs[0];
      var rest := EncodedNextBlock(lines, i, rows, bs);
      ReadRows(lines, i, rows, rest, conv, init);
      var (j, s) := ReadBlock(lines, i, true, conv, init);
      RADFromEncoded(lines, j, b.name, b.rows, bs[1..], conv, s.tmp, StoreIf(db, name, s.block));
    }
  }

  /** After the rows of one block come the next block's name line and the
      encoding of the blocks after it. */
  lemma EncodedNextBlock(lines: seq<Line>, i: nat, rows: seq<Row>, bs: seq<Block>) returns (rest: seq<Line>)
    requires i <= |lines| && lines[i..] == EncodeRows(rows) + EncodeBlocks(bs) + [BlankLine] && 0 < |bs|
    ensures lines[i..] == EncodeRows(rows) + rest && rest[0] == NameLine(bs[0].name)
    ensures i + |rows| + 1 <= |lines|
    ensures lines[i + |rows| + 1..] == EncodeRows(bs[0].rows) + EncodeBlocks(bs[1..]) + [BlankLine]
  {
    var b := bs[0];
    var tail := EncodeRows(b.rows) + EncodeBlocks(bs[1..]) + [BlankLine];
    rest := [NameLine(b.name)] + tail;
    assert EncodeBlocks(bs) + [BlankLine] == rest;
    assert lines[i + |rows| + 1..] == lines[i..][|rows| + 1..];
    assert EncodeRows(rows) + rest == (EncodeRows(rows) + [NameLine(b.name)]) + tail;
  }

  /** Round trip: text before the first name line, then blocks with valid names,
      then the blank last line, import as those blocks stored in order (a later
      block with the same name wins). */
  lemma RADRoundTrip(pre: seq<Line>, bs: seq<Block>, conv: Conversions, db: map<string, RadiationData>)
    requires forall k :: 0 <= k < |pre| ==> !IsNameLine(pre[k])
    requires forall k :: 0 <= k < |bs| ==> ValidName(bs[k].name)
    ensures RADImport(pre + EncodeBlocks(bs) + [BlankLine], true, conv, db) == StoredRAD(db, bs, conv)
  {
    var lines := pre + EncodeBlocks(bs) + [BlankLine];
    if |bs| == 0 {
      assert forall k :: 0 <= k < |lines| ==> !IsNameLine(lines[k]) by {
        assert forall k :: 0 <= k < |pre| ==> lines[k] == pre[k];
      }
      RADImportWithoutNameLine(lines, true, conv, db);
    } else {
      var b := bs[0];
      var init := Scan(0, "", "", Empty);
      var tail := EncodeRows(b.rows) + EncodeBlocks(bs[1..]) + [BlankLine];
      assert lines == pre + [NameLine(b.name)] + tail;
      ReadBlockWithoutNameLine(pre, 0, true, conv, init);
      ReadBlockSkipsPreamble(lines, pre, NameLine(b.name), conv, init);
      var (j, s) := ReadBlock(lines, 0, true, conv, init);
      assert lines[j..] == tail;
      RADFromEncoded(lines, j, b.name, b.rows, bs[1..], conv, s.tmp, db);
    }
  }

  lemma {:induction false} ReadBlockSkipsPreamble(lines: seq<Line>, pre: seq<Line>, nameLine: Line, conv: Conversions,
                                                  s: Scan)
    requires |pre| < |lines| && lines[..|pre|] == pre && lines[|pre|] == nameLine && IsNameLine(nameLine)
    requires forall k :: 0 <= k < |pre| ==> !IsNameLine(pre[k])
    ensures ReadBlock(lines, 0, true, conv, s).0 == |pre| + 1
    ensures ReadBlock(lines, 0, true, conv, s).1.nextName == Extract(nameLine.tokens, 0, s.nextName)
  {
    ReadBlockFrom(lines, 0, |pre|, conv, s);
  }

  lemma {:induction false} ReadBlockFrom(lines: seq<Line>, i: nat, e: nat, conv: Conversions, s: Scan)
    requires i <= e < |lines| && IsNameLine(lines[e])
    requires forall k :: i <= k < e ==> !IsNameLine(lines[k])
    ensures ReadBlock(lines, i, true, conv, s).0 == e + 1
    ensures ReadBlock(lines, i, true, conv, s).1.nextName == Extract(lines[e].tokens, 0, s.nextName)
    decreases e - i
  {
    if i < e {
      ReadBlockFrom(lines, i + 1, e, conv, ReadRow(lines[i], true, conv, s));
    }
  }

  // ---------------------------------------------------------------------------
  // The reader as written: a blank last line repeats the last photon row
  // ---------------------------------------------------------------------------

  /** Text conversions for the example below. */
  const ExampleConversions := Conversions(t => if t == "0.5" then 0.5 else 0.662, t => if t == "1" then 1 else 0)

  /** One nuclide with one gamma row, and the blank line `getline` returns at
      the end of a file that ends with a newline. */
  const ExampleLines := [NameLine("Cs-137"), RowLine(Row("1", "0.5", "0.662")), BlankLine]

  /** As written, the blank line re-uses the code and the stale `tmp` (the
      energy text), so a second entry appears whose yield is the energy. */
  lemma BlankLineDuplicatesLastRow()
    ensures var r := RADImport(ExampleLines, false, ExampleConversions, map[]);
            "Cs-137" in r && r["Cs-137"] == RadiationData([0.662, 0.662], [0.5, 0.662])
  {
    var lines := ExampleLines;
    var conv := ExampleConversions;
    assert IsNameLine(lines[0]) && !IsNameLine(lines[1]) && !IsNameLine(lines[2]);
    var init0 := Scan(0, "", "", Empty);
    assert ReadBlock(lines, 0, false, conv, init0) == (1, init0.(nextName := "Cs-137"));
    assert RADImport(lines, false, conv, map[]) == RADFrom(lines, 1, false, conv, "Cs-137", "", map[]);
    var init1 := Scan(0, "", "Cs-137", Empty);
    var r1 := ReadRow(lines[1], false, conv, init1);
    assert r1 == Scan(1, "0.662", "Cs-137", RadiationData([0.662], [0.5]));
    var r2 := ReadRow(lines[2], false, conv, r1);
    assert r2 == Scan(1, "0.662", "Cs-137", RadiationData([0.662, 0.662], [0.5, 0.662]));
    assert ReadBlock(lines, 2, false, conv, r1) == (3, r2);
    assert ReadBlock(lines, 1, false, conv, init1) == (3, r2);
    assert RADFrom(lines, 1, false, conv, "Cs-137", "", map[])
        == RADFrom(lines, 3, false, conv, "Cs-137", "0.662", map["Cs-137" := r2.block]);
  }

  /** The corrected reader, on the same lines, stores the one row. */
  lemma BlankLineIgnoredWhenSkipped()
    ensures var r := RADImport(ExampleLines, true, ExampleConversions, map[]);
            "Cs-137" in r && r["Cs-137"] == RadiationData([0.662], [0.5])
  {
    RADRoundTrip([], [Block("Cs-137", [Row("1", "0.5", "0.662")])], ExampleConversions, map[]);
    assert ExampleLines == [] + EncodeBlocks([Block("Cs-137", [Row("1", "0.5", "0.662")])]) + [BlankLine];
  }

  // ---------------------------------------------------------------------------
  // The importing loops, writing into the manager's two maps
  // ---------------------------------------------------------------------------

  /** One triple of the daughter scan. */
  lemma ScanDaughtersStep(tokens: seq<string>, pos: nat, slots: nat, toReal: string -> real, acc: DaughterScan)
    requires 0 < slots
    ensures var daughter := Extract(tokens, pos, acc.tmp);
            var ratio := Extract(tokens, pos + 2, daughter);
            ScanDaughters(tokens, pos, slots, toReal, acc)
            == if daughter == "0" then acc.(tmp := daughter)
               else ScanDaughters(tokens, pos + 3, slots - 1, toReal,
                                  DaughterScan(acc.names + [daughter], acc.ratios + [toReal(ratio)], ratio))
  {
  }

  /** The daughter loop of one NDX line: the reads start at the eighth token,
      `pos` is the stream position (three tokens per daughter) and `tmp` is the
      value left by the line before. */
  method ReadDaughters(tokens: seq<string>, toReal: string -> real, tmp0: string)
    returns (names: seq<string>, ratios: seq<real>, tmp: string)
    ensures DaughterScan(names, ratios, tmp) == ScanDaughters(tokens, 7, 4, toReal, DaughterScan([], [], tmp0))
  {
    names, ratios, tmp := [], [], tmp0;
    var pos := 7;
    ghost var whole := ScanDaughters(tokens, 7, 4, toReal, DaughterScan([], [], tmp0));
    ghost var slots: nat := 4;
    for k := 0 to 4
      invariant slots == 4 - k
      invariant ScanDaughters(tokens, pos, slots, toReal, DaughterScan(names, ratios, tmp)) == whole
    {
      ghost var before := DaughterScan(names, ratios, tmp);
      ScanDaughtersStep(tokens, pos, slots, toReal, before);
      tmp := Extract(tokens, pos, tmp);
      if tmp == "0" {
        assert before.(tmp := tmp) == DaughterScan(names, ratios, tmp);
        break;
      }
      names := names + [tmp];
      tmp := Extract(tokens, pos + 2, tmp);
      ratios := ratios + [toReal(tmp)];
      pos := pos + 3;
      slots := slots - 1;
    }
  }

  /** The manager's two maps, filled by the importers. */
  class Tables {
    var decayDatabase: map<string, DecayData>
    var radiationDatabase: map<string, RadiationData>

    function Snapshot(): Database
      reads this
    {
      Database(decayDatabase, radiationDatabase)
    }

    /** Both maps start empty, so both tables are imported: NDX, then RAD. */
    constructor (ndxLines: seq<seq<string>>, radLines: seq<Line>, conv: Conversions)
      ensures Snapshot() == Database(NDXImport(ndxLines, conv.toReal, map[]), RADImport(radLines, true, conv, map[]))
    {
      decayDatabase := map[];
      radiationDatabase := map[];
      new;
      ImportNDX(ndxLines, conv.toReal);
      ImportRAD(radLines, conv);
    }

    method ImportNDX(lines: seq<seq<string>>, toReal: string -> real)
      modifies this
      ensures decayDatabase == NDXImport(lines, toReal, old(decayDatabase))
      ensures radiationDatabase == old(radiationDatabase)
    {
      var tmp := "";
      var i := 1;
      while i < |lines|
        invariant 1 <= i
        invariant NDXFrom(lines, i, toReal, tmp, decayDatabase) == NDXImport(lines, toReal, old(decayDatabase))
        invariant radiationDatabase == old(radiationDatabase)
        decreases |lines| - i
      {
        var tokens := lines[i];
        var name := Extract(tokens, 0, "");
        var halfLife := Extract(tokens, 1, "");
        var decayMode := Extract(tokens, 2, "");
        var names, ratios;
        names, ratios, tmp := ReadDaughters(tokens, toReal, tmp);
        decayDatabase := decayDatabase[name := DecayData(halfLife, decayMode, names, ratios)];
        i := i + 1;
      }
    }

    /** The corrected reader: token-less lines are skipped. */
    method ImportRAD(lines: seq<Line>, conv: Conversions)
      modifies this
      ensures radiationDatabase == RADImport(lines, true, conv, old(radiationDatabase))
      ensures decayDatabase == old(decayDatabase)
    {
      var tmp, name, nextName := "", "", "";
      var i := 0;
      while i < |lines|
        invariant i <= |lines| && name == nextName
        invariant RADFrom(lines, i, true, conv, name, tmp, radiationDatabase)
                  == RADImport(lines, true, conv, old(radiationDatabase))
        invariant decayDatabase == old(decayDatabase)
        decreases |lines| - i
      {
        var code := 0;
        var blockEnergies: seq<real> := [];
        var blockYields: seq<real> := [];
        ghost var start := i;
        ghost var target := ReadBlock(lines, i, true, conv, Scan(0, tmp, nextName, Empty));
        while i < |lines|
          invariant start <= i <= |lines|
          invariant ReadBlock(lines, i, true, conv, Scan(code, tmp, nextName, RadiationData(blockEnergies, blockYields))) == target
          decreases |lines| - i
        {
          var line := lines[i];
          ghost var before := Scan(code, tmp, nextName, RadiationData(blockEnergies, blockYields));
          i := i + 1;
          if IsNameLine(line) {
            nextName := Extract(line.tokens, 0, nextName);
            break;
          }
          if |line.tokens| == 0 {
            continue;
          }
          code := conv.toCode(line.tokens[0]);
          if IsPhotonCode(code) {
            tmp := Extract(line.tokens, 1, tmp);
            blockYields := blockYields + [conv.toReal(tmp)];
            tmp := Extract(line.tokens, 2, tmp);
            blockEnergies := blockEnergies + [conv.toReal(tmp) * MeV];
          }
          assert Scan(code, tmp, nextName, RadiationData(blockEnergies, blockYields))
              == ReadRow(line, true, conv, before);
        }
        assert (i, Scan(code, tmp, nextName, RadiationData(blockEnergies, blockYields))) == target;
        radiationDatabase := StoreIf(radiationDatabase, name, RadiationData(blockEnergies, blockYields));
        name := nextName;
      }
    }
  }
}
