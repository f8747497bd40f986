// Which delimiter a ZIP/county file is read with. A schema fixes its delimiter,
// whichever delimiter its names were recognised under, so a recognised header
// can be read wrongly: exactly when, and what becomes of the file.
module ZipHeaders {
  import opened Wrappers
  import opened Text
  import opened ZipCounty

  // ---- what the csv reader makes of a line without quotes ----

  function Pieces(line: string, c: char): (cells: seq<string>)
    ensures cells != []
  {
    if line == "" then [""]
    else
      var before, last := Pieces(line[..|line| - 1], c), line[|line| - 1];
      if last == c then before + [""]
      else before[..|before| - 1] + [before[|before| - 1] + [last]]
  }

  function SplitLine(line: string, c: char): seq<string> {
    if line == "" then [] else Pieces(line, c)
  }

  // A file with this first line.
  function FileOf(header: string, commaLines: seq<Line>, tabLines: seq<Line>): Source {
    Source(SplitLine(header, ','), SplitLine(header, '\t'), commaLines, tabLines)
  }

  lemma {:induction false} PiecesCount(line: string, c: char)
    ensures |Pieces(line, c)| >= 2 <==> c in line
  {
    if line != "" {
      var init, last := line[..|line| - 1], line[|line| - 1];
      PiecesCount(init, c);
      assert c in line <==> c in init || last == c by {
        assert line == init + [last];
      }
      assert |Pieces(line, c)| == |Pieces(init, c)| + if last == c then 1 else 0;
    }
  }

  // No cell holds the delimiter, and every other character is in a cell.
  lemma {:induction false} PiecesHold(line: string, c: char)
    ensures forall i :: 0 <= i < |Pieces(line, c)| ==> c !in Pieces(line, c)[i]
    ensures forall x :: x in line && x != c ==> exists i :: 0 <= i < |Pieces(line, c)| && x in Pieces(line, c)[i]
  {
    if line != "" {
      var init, last := line[..|line| - 1], line[|line| - 1];
      var before, cells := Pieces(init, c), Pieces(line, c);
      PiecesHold(init, c);
      assert line == init + [last];
      forall x | x in line && x != c
        ensures exists i :: 0 <= i < |cells| && x in cells[i]
      {
        if x in init {
          var i :| 0 <= i < |before| && x in before[i];
          assert x in cells[i];
        } else {
          assert x in cells[|cells| - 1];
        }
      }
    }
  }

  function Join(cells: seq<string>, c: char): string
    requires cells != []
  {
    if |cells| == 1 then cells[0] else Join(cells[..|cells| - 1], c) + [c] + cells[|cells| - 1]
  }

  lemma {:induction false} PiecesAppend(line: string, c: char, cell: string)
    requires c !in cell
    ensures Pieces(line + [c] + cell, c) == Pieces(line, c) + [cell]
  {
    if cell == "" {
      assert line + [c] + cell == line + [c];
      assert (line + [c])[..|line|] == line;
    } else {
      var init, last := cell[..|cell| - 1], cell[|cell| - 1];
      assert cell == init + [last];
      var whole := line + [c] + cell;
      assert whole[..|whole| - 1] == line + [c] + init && whole[|whole| - 1] == last;
      PiecesAppend(line, c, init);
    }
  }

  lemma {:induction false} PiecesWhole(line: string, c: char)
    requires c !in line
    ensures Pieces(line, c) == [line]
  {
    if line != "" {
      PiecesWhole(line[..|line| - 1], c);
      assert line == line[..|line| - 1] + [line[|line| - 1]];
    }
  }

  // Splitting undoes joining.
  lemma {:induction false} SplitJoin(cells: seq<string>, c: char)
    requires cells != [] && forall i :: 0 <= i < |cells| ==> c !in cells[i]
    ensures Pieces(Join(cells, c), c) == cells
  {
    var init, last := cells[..|cells| - 1], cells[|cells| - 1];
    assert cells == init + [last];
    if |cells| == 1 {
      PiecesWhole(last, c);
    } else {
      SplitJoin(init, c);
      PiecesAppend(Join(init, c), c, last);
    }
  }

  // ---- the delimiter of the schema and the one it was recognised under ----

  // The splitting of the header whose names were recognised.
  function Recognised(s: Source): seq<string>
    requires s.Source?
  {
    if Detect(s.commaHeader).Some? then s.commaHeader else s.tabHeader
  }

  predicate WrongDelimiter(s: Source) {
    && s.Source?
    && (Detect(s.commaHeader) == Some(Tab) || (Detect(s.commaHeader).None? && Detect(s.tabHeader) == Some(Comma)))
  }

  lemma NormalKeeps(cell: string)
    requires ',' in cell
    ensures ',' in NormalHeader(cell)
  {
    StripKeeps(cell, ',');
    var i :| 0 <= i < |Strip(cell)| && Strip(cell)[i] == ',';
    assert NormalHeader(cell)[i] == ',';
  }

  // The names of a known schema hold no comma.
  lemma NamesWithoutComma(cells: seq<string>)
    requires Detect(cells).Some?
    ensures |cells| >= 2 && forall i :: 0 <= i < |cells| ==> ',' !in cells[i]
  {
    var normal := NormalHeaders(cells);
    hide NormalHeader;
    assert |normal| == |cells|;
    forall i | 0 <= i < |cells|
      ensures ',' !in cells[i]
    {
      assert normal[i] in HUD_SHORT || normal[i] in HUD_LONG || normal[i] in HARVARD;
      assert ',' !in normal[i];
      if ',' in cells[i] {
        NormalKeeps(cells[i]);
      }
    }
  }

  // A header recognised under tabs holds no comma at all.
  lemma TabNamesOnly(header: string)
    requires Detect(SplitLine(header, '\t')).Some?
    ensures ',' !in header && Detect(SplitLine(header, ',')).None?
  {
    NamesWithoutComma(SplitLine(header, '\t'));
    PiecesHold(header, '\t');
    PiecesCount(header, ',');
    hide Detect, Pieces;
    if Detect(SplitLine(header, ',')).Some? {
      NamesWithoutComma(SplitLine(header, ','));
    }
  }

  lemma CommaOrTab(cells: seq<string>)
    ensures Detect(cells).Some? ==> Detect(cells) == Some(Comma) || Detect(cells) == Some(Tab)
  {
  }

  // A recognised header is read as it was recognised exactly when its schema's
  // delimiter is the one it was recognised under.
  lemma ReadAsRecognisedExactlyWhen(header: string, commaLines: seq<Line>, tabLines: seq<Line>)
    requires Format(FileOf(header, commaLines, tabLines)).Some?
    ensures var s := FileOf(header, commaLines, tabLines);
      HeaderOf(s) == Recognised(s) <==> !WrongDelimiter(s)
  {
    var s := FileOf(header, commaLines, tabLines);
    hide Detect, SplitLine;
    if Detect(s.tabHeader).Some? {
      TabNamesOnly(header);
      assert Recognised(s) == s.tabHeader;
    } else {
      assert Recognised(s) == s.commaHeader;
      CommaOrTab(s.commaHeader);
    }
  }

  // Wrongly read, a header has one cell, except that one recognised under commas
  // may hold tabs next to its names.
  lemma OneCellExactlyWhen(header: string, commaLines: seq<Line>, tabLines: seq<Line>)
    requires Format(FileOf(header, commaLines, tabLines)).Some?
    ensures var s := FileOf(header, commaLines, tabLines);
      |HeaderOf(s)| < 2 <==> WrongDelimiter(s) && (Detect(s.commaHeader).Some? ==> '\t' !in header)
  {
    var s := FileOf(header, commaLines, tabLines);
    hide Detect, Pieces;
    PiecesCount(header, ',');
    PiecesCount(header, '\t');
    if Detect(s.tabHeader).Some? {
      NamesWithoutComma(s.tabHeader);
      TabNamesOnly(header);
      assert header != "" && Format(s) == Detect(s.tabHeader);
    } else {
      NamesWithoutComma(s.commaHeader);
      assert header != "" && Format(s) == Detect(s.commaHeader);
      CommaOrTab(s.commaHeader);
    }
  }

  // ---- what becomes of the file ----

  // The only error a first line can give against a header of fewer than two cells.
  function MisreadError(line: Line, columns: nat): ImportError {
    if line.Malformed? then NotDelimited
    else if |line.cells| == columns then MissingColumn(2)
    else ColumnCount(2)
  }

  lemma MisreadLines(lines: seq<Line>, columns: nat, result: Result<seq<Pair>, ImportError>)
    requires columns < 2 && Reads(lines, columns, result)
    ensures result == if lines == [] then Ok([]) else Err(MisreadError(lines[0], columns))
  {
    if lines == [] {
      if result.Ok? {
        assert result.value == [];
      }
    } else {
      assert RowError(lines, columns, 0) == Some(MisreadError(lines[0], columns));
    }
  }

  // A file whose header is read as fewer than two cells never imports: without
  // lines there is no county, and otherwise its first line is refused.
  lemma MisreadNeverImports(
    counties: map<string, County>, before: References, source: Source, actual: string, expected: string,
    release: Release, clean: bool, dryRun: bool, result: Result<ImportCounts, ImportError>, after: References)
    requires source.Source? && Format(source).Some? && |HeaderOf(source)| < 2 && actual == Lower(expected)
    requires ImportOutcome(counties, before, source, actual, expected, release, clean, dryRun, result, after)
    ensures var lines := LinesOf(source);
      && result == Err(if lines == [] then NoCounty else MisreadError(lines[0], |HeaderOf(source)|))
      && after == before
  {
    hide Format, Reads;
    var reading :| Reads(LinesOf(source), |HeaderOf(source)|, reading)
      && RowsOutcome(counties, before, reading, release, clean, dryRun, result, after);
    MisreadLines(LinesOf(source), |HeaderOf(source)|, reading);
  }

  // Some file with this header has a county to import.
  ghost predicate CanImport(counties: map<string, County>, source: Source)
    requires source.Source?
  {
    exists lines, rows: seq<Pair> ::
      Reads(lines, |HeaderOf(source)|, Ok(rows)) && Compatible(rows, counties) != []
  }

  // A recognised header lets files import exactly when it is read as two cells
  // or more.
  lemma ImportsExactlyWhen(counties: map<string, County>, source: Source, fips: string)
    requires source.Source? && Format(source).Some?
    requires fips in counties && ValidCode(fips) && Strip(fips) == fips
    ensures CanImport(counties, source) <==> |HeaderOf(source)| >= 2
  {
    var columns := |HeaderOf(source)|;
    hide Format, HeaderOf;
    if columns >= 2 {
      var line := Cells([fips, fips] + seq(columns - 2, _ => ""));
      assert ReadLine(line, columns, 2) == Ok((fips, fips));
      var rows := [(fips, fips)];
      assert Reads([line], columns, Ok(rows));
      CompatibleFits(rows, counties);
      assert (fips, fips) in Compatible(rows, counties);
    } else {
      forall lines, rows: seq<Pair> | Reads(lines, columns, Ok(rows))
        ensures Compatible(rows, counties) == []
      {
        MisreadLines(lines, columns, Ok(rows));
      }
    }
  }

  // ---- three headers ----

  lemma LowerNames(names: seq<string>)
    requires forall i :: 0 <= i < |names| ==> Trimmed(names[i]) && Lower(names[i]) == names[i]
    ensures NormalHeaders(names) == names
  {
    forall i | 0 <= i < |names|
      ensures NormalHeader(names[i]) == names[i]
    {
      TrimmedStaysPut(names[i]);
    }
  }

  lemma SchemaNames()
    ensures NormalHeaders(HUD_SHORT) == HUD_SHORT && NormalHeaders(HARVARD) == HARVARD
  {
    LowerNames(HUD_SHORT);
    LowerNames(HARVARD);
  }

  lemma {:induction false} JoinHolds(cells: seq<string>, c: char, x: char)
    requires cells != []
    ensures x in Join(cells, c) <==> (x == c && |cells| >= 2) || exists i :: 0 <= i < |cells| && x in cells[i]
  {
    if |cells| >= 2 {
      var init, last := cells[..|cells| - 1], cells[|cells| - 1];
      JoinHolds(init, c, x);
      if x in Join(init, c) && exists i :: 0 <= i < |init| && x in init[i] {
        var i :| 0 <= i < |init| && x in init[i];
        assert x in cells[i];
      }
      if exists i :: 0 <= i < |cells| && x in cells[i] {
        var i :| 0 <= i < |cells| && x in cells[i];
        assert i < |init| ==> x in init[i];
      }
    }
  }

  // The short HUD names between tabs, and the Harvard names between commas.
  function HudWithTabs(): string { Join(HUD_SHORT, '\t') }
  function HarvardWithCommas(): string { Join(HARVARD, ',') }

  // The short and the long names of one source go with commas, those of the
  // other with tabs, in any case and with white space around them.
  lemma KnownSchemas(names: seq<string>)
    ensures NormalHeaders(names) == ["zip", "county"] ==> Detect(names) == Some(Comma)
    ensures NormalHeaders(names) == ["zip", "county", "res_ratio", "bus_ratio", "oth_ratio", "tot_ratio"] ==>
      Detect(names) == Some(Comma)
    ensures NormalHeaders(names) == HARVARD ==> Detect(names) == Some(Tab)
    ensures Detect(names).Some? ==> |names| in {2, 6, 9}
  {
    hide NormalHeader;
    assert |NormalHeaders(names)| == |names|;
  }

  // Both are recognised and read as one cell: no such file imports.
  lemma HudWithTabsIsMisread(commaLines: seq<Line>, tabLines: seq<Line>)
    ensures HudWithTabs() == "zip\tcounty"
    ensures var s := FileOf(HudWithTabs(), commaLines, tabLines);
      Format(s) == Some(Comma) && WrongDelimiter(s) && |HeaderOf(s)| == 1
  {
    SplitJoin(HUD_SHORT, '\t');
    SchemaNames();
    PiecesWhole("zip\tcounty", ',');
  }

  ghost predicate PlainNames(names: seq<string>) {
    names != [] && names[0] != "" && forall i :: 0 <= i < |names| ==> ',' !in names[i] && '\t' !in names[i]
  }

  lemma HarvardIsPlain()
    ensures PlainNames(HARVARD)
  {
  }

  lemma {:induction false} JoinedNames(names: seq<string>)
    requires PlainNames(names)
    ensures SplitLine(Join(names, ','), ',') == names && SplitLine(Join(names, ','), '\t') == [Join(names, ',')]
  {
    hide Pieces, Join;
    SplitJoin(names, ',');
    JoinHolds(names, ',', '\t');
    JoinHolds(names, ',', names[0][0]);
    assert names[0][0] in names[0];
    PiecesWhole(Join(names, ','), '\t');
  }

  lemma OneName(name: string)
    ensures Detect([name]).None?
  {
  }

  lemma HarvardWithCommasIsMisread(commaLines: seq<Line>, tabLines: seq<Line>)
    ensures var s := FileOf(HarvardWithCommas(), commaLines, tabLines);
      Format(s) == Some(Tab) && WrongDelimiter(s) && |HeaderOf(s)| == 1
  {
    hide Join, Pieces, NormalHeaders, PlainNames;
    SchemaNames();
    HarvardIsPlain();
    JoinedNames(HARVARD);
    OneName(HarvardWithCommas());
  }

  // A tab after the first name is stripped when the names are recognised, and
  // splits the header when it is read: the file is read as two columns or more.
  function HarvardWithOneTab(): seq<string> { ["zip\t"] + HARVARD[1..] }

  lemma StripsTab()
    ensures NormalHeader("zip\t") == "zip" && ',' !in "zip\t"
  {
    assert StripRight("zip\t") == StripRight("zip");
    assert Strip("zip\t") == "zip";
  }

  lemma OneTabNames()
    ensures NormalHeaders(HarvardWithOneTab()) == HARVARD
    ensures forall i :: 0 <= i < |HarvardWithOneTab()| ==> ',' !in HarvardWithOneTab()[i]
  {
    hide NormalHeader, PlainNames;
    SchemaNames();
    HarvardIsPlain();
    StripsTab();
    FirstReplaced(HARVARD, "zip\t");
  }

  lemma FirstReplaced(names: seq<string>, first: string)
    requires names != [] && NormalHeaders(names) == names && NormalHeader(first) == names[0]
    requires PlainNames(names) && ',' !in first
    ensures NormalHeaders([first] + names[1..]) == names
    ensures forall i :: 0 <= i < |names| ==> ',' !in ([first] + names[1..])[i]
  {
    hide NormalHeader;
    forall i | 0 <= i < |names|
      ensures NormalHeader(([first] + names[1..])[i]) == names[i]
    {
      assert NormalHeaders(names)[i] == NormalHeader(names[i]);
    }
  }

  lemma HarvardWithOneTabIsReadWrongly(commaLines: seq<Line>, tabLines: seq<Line>)
    ensures var s := FileOf(Join(HarvardWithOneTab(), ','), commaLines, tabLines);
      && Format(s) == Some(Tab) && WrongDelimiter(s)
      && |HeaderOf(s)| >= 2 && HeaderOf(s) != Recognised(s)
  {
    hide Join, Pieces, NormalHeaders;
    var names := HarvardWithOneTab();
    var header := Join(names, ',');
    OneTabNames();
    SplitJoin(names, ',');
    JoinHolds(names, ',', '\t');
    assert '\t' in names[0];
    ReadAsRecognisedExactlyWhen(header, commaLines, tabLines);
    OneCellExactlyWhen(header, commaLines, tabLines);
  }
}
