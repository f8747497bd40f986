// What an import makes of the cells of a file, said of the cells themselves:
// the first is the ZIP code, the second the county.
module ZipFacts {
  import opened Wrappers
  import opened Text
  import opened ZipCounty

  // The pairs a good file gives, and what they become.
  ghost predicate Gives(line: Line, zip: string, fips: string) {
    line.Cells? && |line.cells| >= 2 && zip == Strip(line.cells[0]) && fips == Strip(line.cells[1])
  }

  lemma {:induction false} CompatibleCount(rows: seq<Pair>, counties: map<string, County>)
    ensures |Compatible(rows, counties)| + |set i | 0 <= i < |rows| && rows[i].1 !in counties| == |rows|
  {
    var unknown := set i | 0 <= i < |rows| && rows[i].1 !in counties;
    if rows == [] {
      assert unknown == {};
    } else {
      var init, last := rows[..|rows| - 1], |rows| - 1;
      CompatibleCount(init, counties);
      var before := set i | 0 <= i < |init| && init[i].1 !in counties;
      assert unknown == before + if rows[last].1 !in counties then {last} else {};
    }
  }

  lemma RowsGive(lines: seq<Line>, columns: nat, rows: seq<Pair>)
    requires Reads(lines, columns, Ok(rows))
    ensures |rows| == |lines|
    ensures forall i :: 0 <= i < |lines| ==> Gives(lines[i], rows[i].0, rows[i].1)
    ensures forall zip, fips :: (zip, fips) in rows <==> exists i :: 0 <= i < |lines| && Gives(lines[i], zip, fips)
  {
    ReadMeans(lines, columns, Ok(rows));
    hide Reads, Strip;
    forall zip, fips
      ensures (zip, fips) in rows <==> exists i :: 0 <= i < |lines| && Gives(lines[i], zip, fips)
    {
      if (zip, fips) in rows {
        var i :| 0 <= i < |rows| && rows[i] == (zip, fips);
        assert Gives(lines[i], zip, fips);
      }
      if i :| 0 <= i < |lines| && Gives(lines[i], zip, fips) {
        assert rows[i] == (zip, fips);
      }
    }
  }

  lemma UnknownCount(lines: seq<Line>, columns: nat, rows: seq<Pair>, counties: map<string, County>)
    requires Reads(lines, columns, Ok(rows)) && |rows| == |lines|
    ensures |set i | 0 <= i < |lines| && (exists zip, fips :: Gives(lines[i], zip, fips) && fips !in counties)|
      == |rows| - |Compatible(rows, counties)|
  {
    RowsGive(lines, columns, rows);
    CompatibleCount(rows, counties);
    hide Reads, Strip, Compatible;
    forall i | 0 <= i < |lines|
      ensures rows[i].1 !in counties <==> exists zip, fips :: Gives(lines[i], zip, fips) && fips !in counties
    {
      assert Gives(lines[i], rows[i].0, rows[i].1);
    }
    assert (set i | 0 <= i < |lines| && (exists zip, fips :: Gives(lines[i], zip, fips) && fips !in counties))
      == set i | 0 <= i < |rows| && rows[i].1 !in counties;
  }

  // A successful import stores exactly the lines of known counties beside what
  // was there, under its release, and counts the others as skipped.
  lemma ImportStores(
    counties: map<string, County>, before: References, source: Source, actual: string, expected: string,
    release: Release, clean: bool, result: Result<ImportCounts, ImportError>, after: References)
    requires ImportOutcome(counties, before, source, actual, expected, release, clean, false, result, after)
    requires result.Ok?
    ensures source.Source? && Format(source).Some? && actual == Lower(expected)
    ensures var lines := LinesOf(source);
      && (forall zip, fips :: (zip, fips) in after <==>
            || (zip, fips) in before
            || (fips in counties && exists i :: 0 <= i < |lines| && Gives(lines[i], zip, fips)))
      && (forall i, zip, fips :: 0 <= i < |lines| && Gives(lines[i], zip, fips) && fips in counties ==>
            (zip, fips) in after && after[(zip, fips)] == release)
      && (forall p :: p in before && p in after && after[p] != before[p] ==> after[p] == release)
      && result.value.read == |lines|
      && result.value.skipped ==
         |set i | 0 <= i < |lines| && (exists zip, fips :: Gives(lines[i], zip, fips) && fips !in counties)|
  {
    hide Reads, Format, Gives, CountsOf, HeaderOf, LinesOf, Compatible, Lower;
    var reading :| Reads(LinesOf(source), |HeaderOf(source)|, reading)
      && RowsOutcome(counties, before, reading, release, clean, false, result, after);
    var rows := reading.value;
    RowsGive(LinesOf(source), |HeaderOf(source)|, rows);
    UnknownCount(LinesOf(source), |HeaderOf(source)|, rows, counties);
    CompatibleFits(rows, counties);
    CountsSay(rows, counties, before);
    TableSays(before, rows, counties, release, LinesOf(source));
  }

  lemma TableSays(
    before: References, rows: seq<Pair>, counties: map<string, County>, release: Release, lines: seq<Line>)
    requires forall zip, fips :: (zip, fips) in rows <==> exists i :: 0 <= i < |lines| && Gives(lines[i], zip, fips)
    ensures var after := Imported(before, Pairs(Compatible(rows, counties)), release);
      && (forall zip, fips :: (zip, fips) in after <==>
            || (zip, fips) in before
            || (fips in counties && exists i :: 0 <= i < |lines| && Gives(lines[i], zip, fips)))
      && (forall i, zip, fips :: 0 <= i < |lines| && Gives(lines[i], zip, fips) && fips in counties ==>
            (zip, fips) in after && after[(zip, fips)] == release)
      && (forall p :: p in before && p in after && after[p] != before[p] ==> after[p] == release)
  {
    CompatibleFits(rows, counties);
    hide Gives, Compatible;
  }

  lemma CountsSay(rows: seq<Pair>, counties: map<string, County>, refs: References)
    ensures CountsOf(rows, counties, refs).read == |rows|
    ensures CountsOf(rows, counties, refs).skipped == |rows| - |Compatible(rows, counties)|
  {
  }

  // After it, looking up the first cell of any line finds the active county of
  // its second cell in that county's state.
  lemma ImportedLineIsFound(
    counties: map<string, County>, before: References, source: Source, actual: string, expected: string,
    release: Release, clean: bool, result: Result<ImportCounts, ImportError>, after: References, i: nat)
    requires ImportOutcome(counties, before, source, actual, expected, release, clean, false, result, after)
    requires result.Ok? && i < |LinesOf(source)|
    ensures LinesOf(source)[i].Cells? && |LinesOf(source)[i].cells| >= 2
    ensures var cells := LinesOf(source)[i].cells;
      var fips := Strip(cells[1]);
      fips in counties && counties[fips].active ==> IsCandidate(after, counties, cells[0], counties[fips].stateId, fips)
  {
    ImportStores(counties, before, source, actual, expected, release, clean, result, after);
    var reading :| Reads(LinesOf(source), |HeaderOf(source)|, reading)
      && RowsOutcome(counties, before, reading, release, clean, false, result, after);
    ReadMeans(LinesOf(source), |HeaderOf(source)|, reading);
    hide Reads, Format, CountsOf, RowsOutcome, ImportOutcome, Strip;
    var cells := LinesOf(source)[i].cells;
    assert Gives(LinesOf(source)[i], Strip(cells[0]), Strip(cells[1]));
  }
}
