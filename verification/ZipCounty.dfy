// The offline ZIP/county reference: reading a crosswalk file, importing it in
// one transaction, and looking candidates up.
module ZipCounty {
  import opened Wrappers
  import opened Digits
  import opened Sequences
  import opened Text

  const CODE_LENGTH := 5

  // ---- the file ----

  datatype Delimiter = Comma | Tab

  // One line as the csv reader splits it, or a line it refuses.
  datatype Line = Cells(cells: seq<string>) | Malformed

  // A file: its first line split either way, and the lines after it split
  // either way.
  datatype Source = EmptySource | Source(
    commaHeader: seq<string>,
    tabHeader: seq<string>,
    commaLines: seq<Line>,
    tabLines: seq<Line>)

  datatype ImportError =
    | ChecksumMismatch | SourceEmpty | UnknownFormat
    | NotDelimited | ColumnCount(row: nat) | BadZip(row: nat) | BadFips(row: nat) | MissingColumn(row: nat)
    | NoCounty | NotClean

  predicate ValidCode(s: string) {
    |s| == CODE_LENGTH && forall i :: 0 <= i < |s| ==> IsDigit(s[i])
  }

  // A header cell stripped and in lower case.
  function NormalHeader(s: string): string {
    var t := Strip(s);
    seq(|t|, i requires 0 <= i < |t| => Fold(t[i]))
  }

  function NormalHeaders(header: seq<string>): seq<string> {
    seq(|header|, i requires 0 <= i < |header| => NormalHeader(header[i]))
  }

  const HUD_SHORT := ["zip", "county"]
  const HUD_LONG := ["zip", "county", "res_ratio", "bus_ratio", "oth_ratio", "tot_ratio"]
  const HARVARD := ["zip", "county", "top_match", "min_year", "max_year", "total_matches", "tot_ratio_avg",
    "tot_ratio_min", "tot_ratio_max"]

  // The delimiter of a known schema; duplicate column names match none.
  function Detect(header: seq<string>): Option<Delimiter> {
    var normal := NormalHeaders(header);
    if normal == HUD_SHORT || normal == HUD_LONG then Some(Comma)
    else if normal == HARVARD then Some(Tab)
    else None
  }

  // The format of the whole file: the comma reading of the header first.
  function Format(s: Source): Option<Delimiter>
    requires s.Source?
  {
    if Detect(s.commaHeader).Some? then Detect(s.commaHeader) else Detect(s.tabHeader)
  }

  function HeaderOf(s: Source): seq<string>
    requires s.Source?
  {
    if Format(s) == Some(Comma) then s.commaHeader else s.tabHeader
  }

  function LinesOf(s: Source): seq<Line>
    requires s.Source?
  {
    if Format(s) == Some(Comma) then s.commaLines else s.tabLines
  }

  type Pair = (string, string)

  // What is wrong with one line, or its ZIP and county codes.
  function ReadLine(line: Line, columns: nat, row: nat): Result<Pair, ImportError> {
    if line.Malformed? then Err(NotDelimited)
    else if |line.cells| != columns then Err(ColumnCount(row))
    else if columns < 2 then Err(MissingColumn(row))
    else
      var zip, fips := Strip(line.cells[0]), Strip(line.cells[1]);
      if !ValidCode(zip) then Err(BadZip(row))
      else if !ValidCode(fips) then Err(BadFips(row))
      else Ok((zip, fips))
  }

  // Rows are numbered as in the file, the header being row 1.
  function RowError(lines: seq<Line>, columns: nat, i: nat): Option<ImportError>
    requires i < |lines|
  {
    match ReadLine(lines[i], columns, i + 2)
    case Err(e) => Some(e)
    case Ok(_) => None
  }

  // The reading of a file: all rows, or the error of the first bad one.
  ghost predicate Reads(lines: seq<Line>, columns: nat, result: Result<seq<Pair>, ImportError>) {
    match result
    case Ok(rows) =>
      |rows| == |lines| && forall i :: 0 <= i < |lines| ==> ReadLine(lines[i], columns, i + 2) == Ok(rows[i])
    case Err(e) =>
      exists i :: 0 <= i < |lines| && RowError(lines, columns, i) == Some(e)
        && forall j :: 0 <= j < i ==> RowError(lines, columns, j).None?
  }

  predicate FiveDigits(s: string) {
    |s| == 5 && forall i :: 0 <= i < 5 ==> '0' <= s[i] <= '9'
  }

  // A line of as many cells as the header, at least two, the first a ZIP code
  // and the second a county code.
  predicate GoodLine(line: Line, columns: nat) {
    && line.Cells? && |line.cells| == columns && columns >= 2
    && FiveDigits(Strip(line.cells[0])) && FiveDigits(Strip(line.cells[1]))
  }

  // What is wrong with the line of a row, the first thing that is.
  predicate Complains(line: Line, columns: nat, row: nat, e: ImportError) {
    match e
    case NotDelimited => line.Malformed?
    case ColumnCount(n) => n == row && line.Cells? && |line.cells| != columns
    case MissingColumn(n) => n == row && line.Cells? && |line.cells| == columns < 2
    case BadZip(n) => n == row && line.Cells? && |line.cells| == columns >= 2 && !FiveDigits(Strip(line.cells[0]))
    case BadFips(n) =>
      && n == row && line.Cells? && |line.cells| == columns >= 2
      && FiveDigits(Strip(line.cells[0])) && !FiveDigits(Strip(line.cells[1]))
    case _ => false
  }

  // In the terms of the cells: every line is good and gives its first cell and
  // its second, stripped; or the error is that of the first line that is not.
  ghost predicate ReadsCells(lines: seq<Line>, columns: nat, result: Result<seq<Pair>, ImportError>) {
    match result
    case Ok(rows) =>
      && |rows| == |lines|
      && forall i :: 0 <= i < |lines| ==>
           && GoodLine(lines[i], columns)
           && rows[i].0 == Strip(lines[i].cells[0]) && rows[i].1 == Strip(lines[i].cells[1])
    case Err(e) =>
      exists i :: 0 <= i < |lines| && Complains(lines[i], columns, i + 2, e)
        && forall j :: 0 <= j < i ==> GoodLine(lines[j], columns)
  }

  lemma LineMeans(line: Line, columns: nat, row: nat)
    ensures ReadLine(line, columns, row).Ok? <==> GoodLine(line, columns)
    ensures ReadLine(line, columns, row).Ok? ==>
      ReadLine(line, columns, row).value == (Strip(line.cells[0]), Strip(line.cells[1]))
    ensures forall e :: ReadLine(line, columns, row) == Err(e) <==> Complains(line, columns, row, e)
  {
    hide Strip;
    assert forall s :: ValidCode(s) <==> FiveDigits(s);
  }

  lemma ReadMeans(lines: seq<Line>, columns: nat, result: Result<seq<Pair>, ImportError>)
    requires Reads(lines, columns, result)
    ensures ReadsCells(lines, columns, result)
  {
    hide Strip, ReadLine, GoodLine, Complains;
    forall i | 0 <= i < |lines|
      ensures ReadLine(lines[i], columns, i + 2).Ok? <==> GoodLine(lines[i], columns)
      ensures GoodLine(lines[i], columns) ==>
        && lines[i].Cells? && |lines[i].cells| >= 2
        && ReadLine(lines[i], columns, i + 2) == Ok((Strip(lines[i].cells[0]), Strip(lines[i].cells[1])))
    {
      LineMeans(lines[i], columns, i + 2);
      if GoodLine(lines[i], columns) {
        GoodHasCells(lines[i], columns);
      }
    }
    if result.Err? {
      var i :| 0 <= i < |lines| && RowError(lines, columns, i) == Some(result.error)
        && forall j :: 0 <= j < i ==> RowError(lines, columns, j).None?;
      LineMeans(lines[i], columns, i + 2);
      assert Complains(lines[i], columns, i + 2, result.error);
      forall j | 0 <= j < i
        ensures GoodLine(lines[j], columns)
      {
        assert RowError(lines, columns, j).None?;
      }
    }
  }

  lemma GoodHasCells(line: Line, columns: nat)
    requires GoodLine(line, columns)
    ensures line.Cells? && |line.cells| >= 2
  {
  }

  method ReadRows(lines: seq<Line>, columns: nat) returns (result: Result<seq<Pair>, ImportError>)
    ensures Reads(lines, columns, result)
    ensures ReadsCells(lines, columns, result)
  {
    var rows: seq<Pair> := [];
    for i := 0 to |lines|
      invariant |rows| == i
      invariant forall j :: 0 <= j < i ==> ReadLine(lines[j], columns, j + 2) == Ok(rows[j])
    {
      var line := lines[i];
      assert forall j :: 0 <= j < i ==> RowError(lines, columns, j).None?;
      if line.Malformed? {
        assert RowError(lines, columns, i) == Some(NotDelimited);
        ReadMeans(lines, columns, Err(NotDelimited));
        return Err(NotDelimited);
      }
      if |line.cells| != columns {
        assert RowError(lines, columns, i) == Some(ColumnCount(i + 2));
        ReadMeans(lines, columns, Err(ColumnCount(i + 2)));
        return Err(ColumnCount(i + 2));
      }
      if columns < 2 {
        assert RowError(lines, columns, i) == Some(MissingColumn(i + 2));
        ReadMeans(lines, columns, Err(MissingColumn(i + 2)));
        return Err(MissingColumn(i + 2));
      }
      var zip := Strip(line.cells[0]);
      var fips := Strip(line.cells[1]);
      if !ValidCode(zip) {
        assert RowError(lines, columns, i) == Some(BadZip(i + 2));
        ReadMeans(lines, columns, Err(BadZip(i + 2)));
        return Err(BadZip(i + 2));
      }
      if !ValidCode(fips) {
        assert RowError(lines, columns, i) == Some(BadFips(i + 2));
        ReadMeans(lines, columns, Err(BadFips(i + 2)));
        return Err(BadFips(i + 2));
      }
      rows := rows + [(zip, fips)];
    }
    result := Ok(rows);
    ReadMeans(lines, columns, result);
  }

  // A file has exactly one reading.
  lemma ReadingIsUnique(lines: seq<Line>, columns: nat,
    a: Result<seq<Pair>, ImportError>, b: Result<seq<Pair>, ImportError>)
    requires Reads(lines, columns, a) && Reads(lines, columns, b)
    ensures a == b
  {
    if a.Ok? && b.Ok? {
      forall i | 0 <= i < |lines|
        ensures a.value[i] == b.value[i]
      {
        assert ReadLine(lines[i], columns, i + 2) == Ok(a.value[i]);
        assert ReadLine(lines[i], columns, i + 2) == Ok(b.value[i]);
      }
      assert a.value == b.value;
    } else if a.Err? && b.Err? {
      var i :| 0 <= i < |lines| && RowError(lines, columns, i) == Some(a.error)
        && forall j :: 0 <= j < i ==> RowError(lines, columns, j).None?;
      var j :| 0 <= j < |lines| && RowError(lines, columns, j) == Some(b.error)
        && forall k :: 0 <= k < j ==> RowError(lines, columns, k).None?;
      assert i == j;
    }
  }

  // ---- the table ----

  const TRANSFORMATION := "zip-county-crosswalk-v2"

  datatype Metadata = Metadata(sourceName: string, sourceUrl: string, version: string, date: int)

  datatype Release = Release(metadata: Metadata, checksum: string, transformation: string)

  // rank is the place of the county's name in the database's order of names.
  datatype County = County(stateId: nat, active: bool, rank: nat)

  // References are unique per postal code and county.
  type References = map<Pair, Release>

  datatype ImportCounts = ImportCounts(read: nat, skipped: nat, created: nat, matched: nat)

  // The rows whose county is in the geography table.
  function Compatible(rows: seq<Pair>, counties: map<string, County>): seq<Pair> {
    if rows == [] then []
    else
      var last := rows[|rows| - 1];
      Compatible(rows[..|rows| - 1], counties) + if last.1 in counties then [last] else []
  }

  function Pairs(rows: seq<Pair>): set<Pair> {
    set p | p in rows
  }

  // Every pair of the file carries the release, every other pair is as before.
  function Imported<K, V>(refs: map<K, V>, pairs: set<K>, release: V): map<K, V> {
    refs + map p | p in pairs :: release
  }

  // The pairs of rows that are not stored yet.
  function NewPairs(rows: seq<Pair>, refs: References): nat {
    |Pairs(rows) - refs.Keys|
  }

  // Rows read, rows without a county, new pairs, and the rows left over.
  function CountsOf(rows: seq<Pair>, counties: map<string, County>, refs: References): ImportCounts {
    var kept := Compatible(rows, counties);
    CompatibleFits(rows, counties);
    CreatedFits(kept, refs);
    ImportCounts(|rows|, |rows| - |kept|, NewPairs(kept, refs), |kept| - NewPairs(kept, refs))
  }

  // Some stored pair of the file carries another release.
  ghost predicate NeedsUpdate<K(!new), V>(refs: map<K, V>, pairs: set<K>, release: V) {
    exists p :: p in pairs && p in refs && refs[p] != release
  }

  lemma {:induction false} CompatibleFits(rows: seq<Pair>, counties: map<string, County>)
    ensures |Compatible(rows, counties)| <= |rows|
    ensures forall p :: p in Compatible(rows, counties) <==> p in rows && p.1 in counties
  {
    if rows != [] {
      CompatibleFits(rows[..|rows| - 1], counties);
      assert rows == rows[..|rows| - 1] + [rows[|rows| - 1]];
    }
  }

  lemma {:induction false} CreatedFits(rows: seq<Pair>, refs: References)
    ensures NewPairs(rows, refs) <= |rows|
  {
    if rows == [] {
      assert Pairs(rows) == {};
    } else {
      hide NewPairs;
      var init, last := rows[..|rows| - 1], rows[|rows| - 1];
      assert rows == init + [last];
      CreatedFits(init, refs);
      CreatedNext(init, last, refs);
    }
  }

  // One more row is new unless it was stored or seen before.
  lemma CreatedNext(rows: seq<Pair>, p: Pair, refs: References)
    ensures Pairs(rows + [p]) == Pairs(rows) + {p}
    ensures NewPairs(rows + [p], refs) == NewPairs(rows, refs) + if p in refs || p in rows then 0 else 1
  {
    assert Pairs(rows + [p]) == Pairs(rows) + {p};
    if p in refs || p in rows {
      assert Pairs(rows + [p]) - refs.Keys == Pairs(rows) - refs.Keys;
    } else {
      assert Pairs(rows + [p]) - refs.Keys == (Pairs(rows) - refs.Keys) + {p};
    }
  }

  // What an import reports and leaves behind. clean says whether the release's
  // columns pass the model's full validation, which only an update runs.
  ghost predicate ImportOutcome(
    counties: map<string, County>, before: References, source: Source, actual: string, expected: string,
    release: Release, clean: bool, dryRun: bool, result: Result<ImportCounts, ImportError>, after: References)
  {
    && (result.Err? || dryRun ==> after == before)
    && if actual != Lower(expected) then result == Err(ChecksumMismatch)
       else if source.EmptySource? then result == Err(SourceEmpty)
       else if Format(source).None? then result == Err(UnknownFormat)
       else
         exists reading :: Reads(LinesOf(source), |HeaderOf(source)|, reading)
           && RowsOutcome(counties, before, reading, release, clean, dryRun, result, after)
  }

  ghost predicate RowsOutcome(
    counties: map<string, County>, before: References, reading: Result<seq<Pair>, ImportError>,
    release: Release, clean: bool, dryRun: bool, result: Result<ImportCounts, ImportError>, after: References)
  {
    match reading
    case Err(e) => result == Err(e)
    case Ok(rows) =>
      var kept := Compatible(rows, counties);
      if kept == [] then result == Err(NoCounty)
      else if !dryRun && !clean && NeedsUpdate(before, Pairs(kept), release) then result == Err(NotClean)
      else
        && result == Ok(CountsOf(rows, counties, before))
        && (!dryRun ==> after == Imported(before, Pairs(kept), release))
  }

  // The table once the pairs in seen were visited.
  ghost predicate ImportedSoFar<K(!new), V>(before: map<K, V>, seen: set<K>, release: V, dryRun: bool, now: map<K, V>) {
    && (forall p :: p in now <==> p in before || p in seen)
    && (forall p :: p in now ==> now[p] == if p in seen && (p !in before || !dryRun) then release else before[p])
  }

  lemma VisitNew<K(!new), V>(before: map<K, V>, seen: set<K>, p: K, release: V, dryRun: bool, now: map<K, V>)
    requires ImportedSoFar(before, seen, release, dryRun, now) && p !in now
    ensures p !in before && p !in seen
    ensures ImportedSoFar(before, seen + {p}, release, dryRun, now[p := release])
    ensures !NeedsUpdate(before, seen, release) ==> !NeedsUpdate(before, seen + {p}, release)
  {
  }

  lemma VisitStored<K(!new), V>(before: map<K, V>, seen: set<K>, p: K, release: V, dryRun: bool, now: map<K, V>)
    requires ImportedSoFar(before, seen, release, dryRun, now) && p in now
    ensures p in before || p in seen
    ensures ImportedSoFar(before, seen + {p}, release, dryRun, if dryRun then now else now[p := release])
    ensures now[p] == release && !dryRun && !NeedsUpdate(before, seen, release) ==>
      !NeedsUpdate(before, seen + {p}, release)
    ensures now[p] != release && !dryRun ==> NeedsUpdate(before, seen + {p}, release)
  {
    assert now[p] != release && !dryRun ==> p in before && before[p] == now[p];
  }

  // A list of counties by name, each once.
  ghost predicate ByName(counties: map<string, County>, list: seq<string>) {
    && Distinct(list) && (forall fips :: fips in list ==> fips in counties)
    && forall i, j :: 0 <= i < j < |list| && list[i] in counties && list[j] in counties ==>
         counties[list[i]].rank <= counties[list[j]].rank
  }

  // Active counties of a state recorded for a postal code; none for text that
  // is not a postal code once stripped.
  function Candidates(refs: References, counties: map<string, County>, postalCode: string, stateId: nat): set<string> {
    var code := Strip(postalCode);
    if !ValidCode(code) then {}
    else set fips |
           && fips in counties && counties[fips].active && counties[fips].stateId == stateId
           && (code, fips) in refs
  }

  // An active county of the state that is recorded for the code.
  predicate IsCandidate(
    refs: References, counties: map<string, County>, postalCode: string, stateId: nat, fips: string)
  {
    && FiveDigits(Strip(postalCode)) && (Strip(postalCode), fips) in refs
    && fips in counties && counties[fips].active && counties[fips].stateId == stateId
  }

  lemma CandidatesMean(refs: References, counties: map<string, County>, postalCode: string, stateId: nat)
    ensures forall fips :: fips in Candidates(refs, counties, postalCode, stateId) <==>
      IsCandidate(refs, counties, postalCode, stateId, fips)
  {
    assert ValidCode(Strip(postalCode)) <==> FiveDigits(Strip(postalCode));
    hide Strip;
  }

  // The listed counties come before the rest, and the rest is still to list.
  ghost predicate Listed(counties: map<string, County>, all: set<string>, list: seq<string>, rest: set<string>) {
    && ByName(counties, list) && all <= counties.Keys
    && (forall fips :: fips in all <==> fips in list || fips in rest)
    && (forall fips :: fips in list ==> fips !in rest)
    && (forall a, b :: a in list && b in rest && a in counties && b in counties ==>
      counties[a].rank <= counties[b].rank)
  }

  lemma ListedByName(counties: map<string, County>, list: seq<string>)
    requires ByName(counties, list)
    ensures forall i, j :: 0 <= i < j < |list| ==>
      && list[i] != list[j] && list[i] in counties && list[j] in counties
      && counties[list[i]].rank <= counties[list[j]].rank
  {
  }

  lemma ListNext(counties: map<string, County>, all: set<string>, list: seq<string>, rest: set<string>, next: string)
    requires Listed(counties, all, list, rest) && next in rest && rest <= counties.Keys
    requires forall fips :: fips in rest ==> counties[next].rank <= counties[fips].rank
    ensures Listed(counties, all, list + [next], rest - {next})
  {
  }

  class ZipTable {
    const counties: map<string, County>
    var refs: References

    constructor (counties: map<string, County>)
      ensures this.counties == counties && refs == map[]
    {
      this.counties := counties;
      refs := map[];
    }

    // One transaction: read the file, then get or create a reference per
    // compatible row. A dry run does the same and rolls back.
    method ImportCrosswalk(source: Source, actual: string, expected: string, metadata: Metadata, clean: bool,
      dryRun: bool)
      returns (result: Result<ImportCounts, ImportError>)
      modifies this`refs
      ensures ImportOutcome(counties, old(refs), source, actual, expected, Release(metadata, actual, TRANSFORMATION),
                            clean, dryRun, result, refs)
    {
      hide Reads, Format, Imported, Lower;
      if actual != Lower(expected) {
        return Err(ChecksumMismatch);
      }
      if source.EmptySource? {
        return Err(SourceEmpty);
      }
      if Format(source).None? {
        return Err(UnknownFormat);
      }
      var reading := ReadRows(LinesOf(source), |HeaderOf(source)|);
      if reading.Err? {
        return Err(reading.error);
      }
      result := ImportRows(reading.value, Release(metadata, actual, TRANSFORMATION), clean, dryRun);
    }

    method FirstByName(all: set<string>) returns (first: string)
      requires all != {} && all <= counties.Keys
      ensures first in all && forall fips :: fips in all ==> counties[first].rank <= counties[fips].rank
    {
      first :| first in all;
      var rest := all - {first};
      while rest != {}
        invariant first in all && rest <= all
        invariant forall fips :: fips in all ==> fips in rest || counties[first].rank <= counties[fips].rank
        decreases rest
      {
        var fips :| fips in rest;
        if counties[fips].rank < counties[first].rank {
          first := fips;
        }
        rest := rest - {fips};
      }
    }

    // The candidates of a postal code, ordered by name.
    method LookUp(postalCode: string, stateId: nat) returns (list: seq<string>)
      ensures ByName(counties, list)
      ensures forall fips :: fips in list <==> fips in Candidates(refs, counties, postalCode, stateId)
      ensures forall fips :: fips in list <==> IsCandidate(refs, counties, postalCode, stateId, fips)
      ensures forall i, j :: 0 <= i < j < |list| ==>
        && list[i] != list[j] && list[i] in counties && list[j] in counties
        && counties[list[i]].rank <= counties[list[j]].rank
    {
      CandidatesMean(refs, counties, postalCode, stateId);
      hide ValidCode, Strip, ByName, Listed, IsCandidate;
      var rest := Candidates(refs, counties, postalCode, stateId);
      ghost var all := rest;
      list := [];
      NoneListed(counties, all);
      while rest != {}
        invariant Listed(counties, all, list, rest) && rest <= all <= counties.Keys
        decreases rest
      {
        var next := FirstByName(rest);
        ListNext(counties, all, list, rest, next);
        list, rest := list + [next], rest - {next};
      }
      AllListed(counties, all, list);
      ListedByName(counties, list);
    }

    method ImportRows(rows: seq<Pair>, release: Release, clean: bool, dryRun: bool)
      returns (result: Result<ImportCounts, ImportError>)
      modifies this`refs
      ensures result.Err? || dryRun ==> refs == old(refs)
      ensures RowsOutcome(counties, old(refs), Ok(rows), release, clean, dryRun, result, refs)
    {
      hide ImportedSoFar, NeedsUpdate, Compatible, Imported, NewPairs;
      var before := refs;
      var kept := Compatible(rows, counties);
      CompatibleFits(rows, counties);
      var skipped := |rows| - |kept|;
      if kept == [] {
        return Err(NoCounty);
      }
      var created, matched := 0, 0;
      ImportStarts(before, release, dryRun);
      for i := 0 to |kept|
        invariant ImportedSoFar(before, Pairs(kept[..i]), release, dryRun, refs)
        invariant created == NewPairs(kept[..i], before) && created + matched == i
        invariant !dryRun && !clean ==> !NeedsUpdate(before, Pairs(kept[..i]), release)
      {
        var p := kept[i];
        ghost var seen := Pairs(kept[..i]);
        PairsNext(kept, i, before);
        if p !in refs {
          VisitNew(before, seen, p, release, dryRun, refs);
          refs := refs[p := release];
          created := created + 1;
        } else {
          VisitStored(before, seen, p, release, dryRun, refs);
          matched := matched + 1;
          if !dryRun && refs[p] != release {
            if !clean {
              UpdateNeeded(before, seen + {p}, Pairs(kept), release);
              refs := before;
              return Err(NotClean);
            }
            refs := refs[p := release];
          } else {
            assert !dryRun ==> refs[p := release] == refs;
          }
        }
      }
      assert kept[..|kept|] == kept;
      AllVisited(before, Pairs(kept), release, dryRun, refs);
      if dryRun {
        refs := before;
      }
      result := Ok(ImportCounts(|rows|, skipped, created, matched));
    }
  }

  lemma NoneListed(counties: map<string, County>, all: set<string>)
    requires all <= counties.Keys
    ensures Listed(counties, all, [], all)
  {
  }

  lemma AllListed(counties: map<string, County>, all: set<string>, list: seq<string>)
    requires Listed(counties, all, list, {})
    ensures ByName(counties, list) && forall fips :: fips in list <==> fips in all
  {
  }

  lemma ImportStarts(before: References, release: Release, dryRun: bool)
    ensures ImportedSoFar(before, Pairs([]), release, dryRun, before) && NewPairs([], before) == 0
    ensures !NeedsUpdate(before, Pairs([]), release)
  {
    assert Pairs([]) - before.Keys == {};
  }

  lemma PairsNext(rows: seq<Pair>, i: nat, refs: References)
    requires i < |rows|
    ensures Pairs(rows[..i + 1]) == Pairs(rows[..i]) + {rows[i]} && Pairs(rows[..i + 1]) <= Pairs(rows)
    ensures NewPairs(rows[..i + 1], refs) == NewPairs(rows[..i], refs)
            + if rows[i] in refs || rows[i] in Pairs(rows[..i]) then 0 else 1
  {
    assert rows[..i + 1] == rows[..i] + [rows[i]];
    CreatedNext(rows[..i], rows[i], refs);
  }

  lemma UpdateNeeded(refs: References, some: set<Pair>, all: set<Pair>, release: Release)
    requires NeedsUpdate(refs, some, release) && some <= all
    ensures NeedsUpdate(refs, all, release)
  {
  }

  lemma AllVisited<K(!new), V>(before: map<K, V>, pairs: set<K>, release: V, dryRun: bool, now: map<K, V>)
    requires ImportedSoFar(before, pairs, release, dryRun, now)
    ensures !dryRun ==> now == Imported(before, pairs, release)
  {
  }

  // ---- what an import means ----

  // The counters are a partition of the file, and the created one is the
  // growth of the table.
  lemma CountsAddUp(rows: seq<Pair>, counties: map<string, County>, refs: References, release: Release)
    ensures var c := CountsOf(rows, counties, refs);
      && c.read == |rows| == c.skipped + c.created + c.matched
      && |Imported(refs, Pairs(Compatible(rows, counties)), release)| == |refs| + c.created
  {
    var pairs := Pairs(Compatible(rows, counties));
    var after := Imported(refs, pairs, release);
    CompatibleFits(rows, counties);
    CreatedFits(Compatible(rows, counties), refs);
    KeysGrow(refs.Keys, pairs);
    assert after.Keys == refs.Keys + pairs;
    assert |after| == |after.Keys| && |refs| == |refs.Keys|;
  }

  lemma KeysGrow<K>(a: set<K>, b: set<K>)
    ensures |a + b| == |a| + |b - a|
  {
    assert a + b == a + (b - a);
  }

  // Importing the same rows again creates nothing and changes nothing, and
  // never needs an update.
  lemma ImportIsIdempotent(rows: seq<Pair>, counties: map<string, County>, refs: References, release: Release)
    ensures var pairs := Pairs(Compatible(rows, counties));
      var after := Imported(refs, pairs, release);
      && Imported(after, pairs, release) == after
      && CountsOf(rows, counties, after).created == 0
      && !NeedsUpdate(after, pairs, release)
  {
    hide Compatible, NewPairs;
    var kept := Compatible(rows, counties);
    ImportedTwice(refs, Pairs(kept), release);
    NoNewPairs(kept, Imported(refs, Pairs(kept), release));
  }

  lemma ImportedTwice<K(!new), V>(refs: map<K, V>, pairs: set<K>, release: V)
    ensures var after := Imported(refs, pairs, release);
      Imported(after, pairs, release) == after && !NeedsUpdate(after, pairs, release) && pairs <= after.Keys
  {
  }

  lemma NoNewPairs(rows: seq<Pair>, refs: References)
    requires Pairs(rows) <= refs.Keys
    ensures NewPairs(rows, refs) == 0
  {
    assert Pairs(rows) - refs.Keys == {};
  }

  lemma {:induction false} CompatibleConcat(a: seq<Pair>, b: seq<Pair>, counties: map<string, County>)
    ensures Compatible(a + b, counties) == Compatible(a, counties) + Compatible(b, counties)
  {
    if b == [] {
      assert a + b == a;
    } else {
      var init, last := b[..|b| - 1], b[|b| - 1];
      assert (a + b)[..|a + b| - 1] == a + init;
      CompatibleConcat(a, init, counties);
    }
  }

  lemma RemoveOne<T>(s: seq<T>, k: nat)
    requires k < |s|
    ensures multiset(s[..k] + s[k + 1..]) == multiset(s) - multiset{s[k]}
    ensures s == s[..k] + ([s[k]] + s[k + 1..])
  {
    assert s == s[..k] + ([s[k]] + s[k + 1..]);
  }

  lemma CompatibleWithout(s: seq<Pair>, k: nat, counties: map<string, County>)
    requires k < |s|
    ensures |Compatible(s, counties)| ==
            |Compatible(s[..k] + s[k + 1..], counties)| + if s[k].1 in counties then 1 else 0
  {
    RemoveOne(s, k);
    CompatibleConcat(s[..k], [s[k]] + s[k + 1..], counties);
    CompatibleConcat([s[k]], s[k + 1..], counties);
    CompatibleConcat(s[..k], s[k + 1..], counties);
  }

  lemma {:induction false} CompatibleOrder(a: seq<Pair>, b: seq<Pair>, counties: map<string, County>)
    requires multiset(a) == multiset(b)
    ensures |Compatible(a, counties)| == |Compatible(b, counties)|
    decreases |a|
  {
    if a == [] {
      assert |multiset(b)| == 0;
    } else {
      hide Compatible;
      var last := |a| - 1;
      assert a[last] in multiset(b);
      var k :| 0 <= k < |b| && b[k] == a[last];
      RemoveOne(a, last);
      RemoveOne(b, k);
      CompatibleWithout(a, last, counties);
      CompatibleWithout(b, k, counties);
      CompatibleOrder(a[..last] + a[last + 1..], b[..k] + b[k + 1..], counties);
    }
  }

  // The order of the lines does not matter, neither to the table nor to the
  // counters.
  lemma ImportIgnoresOrder(a: seq<Pair>, b: seq<Pair>, counties: map<string, County>, refs: References)
    requires multiset(a) == multiset(b)
    ensures Pairs(Compatible(a, counties)) == Pairs(Compatible(b, counties))
    ensures CountsOf(a, counties, refs) == CountsOf(b, counties, refs)
  {
    hide Compatible, NewPairs;
    CompatibleFits(a, counties);
    CompatibleFits(b, counties);
    CompatibleOrder(a, b, counties);
    SameRows(a, b);
    assert Pairs(Compatible(a, counties)) == Pairs(Compatible(b, counties));
    SamePairsSameNew(Compatible(a, counties), Compatible(b, counties), refs);
  }

  lemma SameRows<T>(a: seq<T>, b: seq<T>)
    requires multiset(a) == multiset(b)
    ensures |a| == |b| && forall p :: p in a <==> p in b
  {
    assert forall p :: p in a <==> p in multiset(a);
    assert forall p :: p in b <==> p in multiset(b);
    assert |a| == |multiset(a)| && |b| == |multiset(b)|;
  }

  lemma SamePairsSameNew(a: seq<Pair>, b: seq<Pair>, refs: References)
    requires Pairs(a) == Pairs(b)
    ensures NewPairs(a, refs) == NewPairs(b, refs)
  {
  }

  // A dry run reports what the real run would, unless the real run has to
  // update a stored row to release columns that fail validation.
  lemma DryRunPredicts(
    counties: map<string, County>, before: References, reading: Result<seq<Pair>, ImportError>,
    release: Release, clean: bool,
    dry: Result<ImportCounts, ImportError>, result: Result<ImportCounts, ImportError>,
    dryAfter: References, after: References)
    requires RowsOutcome(counties, before, reading, release, clean, true, dry, dryAfter)
    requires RowsOutcome(counties, before, reading, release, clean, false, result, after)
    ensures dry == result <==>
      !(reading.Ok? && !clean && NeedsUpdate(before, Pairs(Compatible(reading.value, counties)), release))
  {
    hide CountsOf;
    if reading.Ok? && Compatible(reading.value, counties) == [] {
      assert Pairs(Compatible(reading.value, counties)) == {};
    }
  }

  // ---- lookup ----

  // After an import a lookup finds what it found before and the active
  // counties of the file's lines for that code, and white space around the
  // code makes no difference.
  lemma CandidatesAfterImport(
    refs: References, counties: map<string, County>, rows: seq<Pair>, release: Release, postalCode: string,
      stateId: nat)
    requires forall i :: 0 <= i < |rows| ==> ValidCode(rows[i].0)
    ensures var after := Imported(refs, Pairs(Compatible(rows, counties)), release);
      && Candidates(after, counties, postalCode, stateId) ==
           Candidates(refs, counties, postalCode, stateId)
           + (set i | 0 <= i < |rows| && rows[i].0 == Strip(postalCode) && rows[i].1 in counties
                      && counties[rows[i].1].active && counties[rows[i].1].stateId == stateId :: rows[i].1)
      && Candidates(after, counties, Strip(postalCode), stateId) == Candidates(after, counties, postalCode, stateId)
  {
    CompatibleFits(rows, counties);
    StripTrims(postalCode);
  }
}
