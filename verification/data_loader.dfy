/**
 * The keyword-table loader: recognises the 17 standard column names through an alias table
 * (ignoring letter case and surrounding whitespace), rejects unsupported file names and files
 * that lack a standard column, and cleans the rows: numeric coercion, defaults for missing
 * previous position, difficulty and cost per click, and three derived fields.
 */
module DataLoader {
  import opened Wrappers
  import opened Cells
  import opened Frames

  /** The standard column names, each with the header spellings that are accepted for it. */
  const COLUMN_MAPPING: seq<(string, seq<string>)> := [
    ("Keyword", ["Keyword", "keyword", "Keywords", "keywords", "Search Term", "search term"]),
    ("Position", ["Position", "position", "Rank", "rank", "Current Position"]),
    ("Previous position", ["Previous position", "Previous Position", "Previous Rank", "previous_position", "Prev Position"]),
    ("Search Volume", ["Search Volume", "search volume", "Volume", "volume", "SV", "Monthly Searches"]),
    ("Keyword Difficulty", ["Keyword Difficulty", "keyword difficulty", "Difficulty", "KD", "Competition Score"]),
    ("CPC", ["CPC", "cpc", "Cost Per Click", "Cost per click", "Avg CPC"]),
    ("URL", ["URL", "url", "Landing Page", "landing page", "Page URL"]),
    ("Traffic", ["Traffic", "traffic", "Est Traffic", "Estimated Traffic", "Organic Traffic"]),
    ("Traffic (%)", ["Traffic (%)", "Traffic %", "traffic_percent", "Traffic Share", "Share"]),
    ("Traffic Cost", ["Traffic Cost", "traffic cost", "Est Cost", "Estimated Cost", "Value"]),
    ("Competition", ["Competition", "competition", "Competitive Density", "Density"]),
    ("Number of Results", ["Number of Results", "Results", "number_of_results", "Total Results"]),
    ("Trends", ["Trends", "trends", "Trend", "trend", "Search Trend"]),
    ("Timestamp", ["Timestamp", "timestamp", "Date", "date", "Last Updated"]),
    ("SERP Features by Keyword", ["SERP Features by Keyword", "SERP Features", "serp_features", "Features"]),
    ("Keyword Intents", ["Keyword Intents", "Intent", "intent", "Search Intent", "User Intent"]),
    ("Position Type", ["Position Type", "Type", "position_type", "Result Type", "SERP Type"])
  ]

  /** The columns that cleaning coerces to numbers. */
  const NUMERIC_COLUMNS: seq<string> := [
    "Position", "Previous position", "Search Volume", "Keyword Difficulty", "CPC",
    "Traffic", "Traffic (%)", "Traffic Cost", "Competition", "Number of Results"
  ]

  function StandardName(i: nat): string
    requires i < |COLUMN_MAPPING|
  {
    COLUMN_MAPPING[i].0
  }

  function StandardNames(): seq<string> {
    seq(|COLUMN_MAPPING|, i requires 0 <= i < |COLUMN_MAPPING| => COLUMN_MAPPING[i].0)
  }

  /** One cleaned row; every standard column is present, numbers are coerced (None: NaN). */
  datatype KeywordRow = KeywordRow(
    keyword: Cell,
    position: Option<real>,
    previousPosition: Option<real>,
    searchVolume: Option<real>,
    difficulty: real,
    cpc: real,
    url: Cell,
    traffic: Option<real>,
    trafficPercent: Option<real>,
    trafficCost: Option<real>,
    competition: Option<real>,
    numberOfResults: Option<real>,
    trends: Cell,
    timestamp: Cell,
    serpFeatures: Cell,
    intents: Cell,
    positionType: Cell,
    positionChange: Option<real>,
    opportunityScore: Option<real>,
    competitiveThreat: Option<real>)

  /** An uploaded file: its name and the table the CSV or Excel reader makes of it. */
  datatype Upload = Upload(name: string, frame: Frame)

  datatype LoadError =
    | NoFile
    | UnsupportedFormat
    | MissingColumns(columns: seq<string>)
    | ConversionError(column: string)

  // ---------------------------------------------------------------------------
  // Header mapping
  // ---------------------------------------------------------------------------

  function LowerAll(names: seq<string>): seq<string> {
    seq(|names|, i requires 0 <= i < |names| => Lower(names[i]))
  }

  /** A header names the column whose aliases contain it, up to case and surrounding whitespace. */
  predicate MatchesAlias(header: string, aliases: seq<string>) {
    Lower(Strip(header)) in LowerAll(aliases)
  }

  /** The first header, from position `j` on, that matches one of `aliases`. */
  function FirstMatchFrom(columns: seq<string>, aliases: seq<string>, j: nat): (r: Option<nat>)
    decreases |columns| - j
    ensures r.Some? ==> j <= r.value < |columns| && MatchesAlias(columns[r.value], aliases)
    ensures forall k :: j <= k < |columns| && (r.None? || k < r.value) ==> !MatchesAlias(columns[k], aliases)
  {
    if j >= |columns| then None
    else if MatchesAlias(columns[j], aliases) then Some(j)
    else FirstMatchFrom(columns, aliases, j + 1)
  }

  /** The first header matching the aliases of entry `i` of an alias table. */
  function FirstMatchIn(table: seq<(string, seq<string>)>, columns: seq<string>, i: nat): Option<nat>
    requires i < |table|
  {
    FirstMatchFrom(columns, table[i].1, 0)
  }

  /** The renaming built from the first `n` entries of an alias table: header -> standard name. */
  function RenamingUpTo(table: seq<(string, seq<string>)>, columns: seq<string>, n: nat): map<string, string>
    requires n <= |table|
  {
    if n == 0 then map[]
    else
      var m := RenamingUpTo(table, columns, n - 1);
      match FirstMatchIn(table, columns, n - 1)
      case None => m
      case Some(j) => m[columns[j] := table[n - 1].0]
  }

  function FirstMatch(columns: seq<string>, i: nat): Option<nat>
    requires i < |COLUMN_MAPPING|
  {
    FirstMatchIn(COLUMN_MAPPING, columns, i)
  }

  /** The renaming built from the first `n` standard names. */
  function MappingUpTo(columns: seq<string>, n: nat): map<string, string>
    requires n <= |COLUMN_MAPPING|
  {
    RenamingUpTo(COLUMN_MAPPING, columns, n)
  }

  function ColumnMapping(columns: seq<string>): map<string, string> {
    MappingUpTo(columns, |COLUMN_MAPPING|)
  }

  /** `df.rename(columns=mapping)`: mapped headers get their standard name, the rest keep theirs. */
  function Rename(columns: seq<string>, mapping: map<string, string>): (r: seq<string>)
    ensures |r| == |columns|
  {
    seq(|columns|, i requires 0 <= i < |columns| =>
      if columns[i] in mapping then mapping[columns[i]] else columns[i])
  }

  /**
   * Builds the renaming as the loader does: for each standard name in table order, the first
   * header in file order whose stripped, lower-cased text is a lower-cased alias.
   */
  method MapColumns(columns: seq<string>) returns (mapping: map<string, string>)
    ensures mapping == ColumnMapping(columns)
  {
    mapping := map[];
    var i := 0;
    while i < |COLUMN_MAPPING|
      invariant 0 <= i <= |COLUMN_MAPPING|
      invariant mapping == MappingUpTo(columns, i)
    {
      var standard := COLUMN_MAPPING[i].0;
      var lowered := LowerAll(COLUMN_MAPPING[i].1);
      var j := 0;
      while j < |columns|
        invariant 0 <= j <= |columns|
        invariant mapping == MappingUpTo(columns, i)
        invariant FirstMatch(columns, i) == FirstMatchFrom(columns, COLUMN_MAPPING[i].1, j)
      {
        if Lower(Strip(columns[j])) in lowered {
          mapping := mapping[columns[j] := standard];
          break;
        }
        j := j + 1;
      }
      i := i + 1;
    }
  }

  /** `_map_columns`: the frame with its headers renamed; rows and cells are untouched. */
  function MapFrame(f: Frame): (r: Frame)
    ensures r.rows == f.rows && |r.columns| == |f.columns|
    ensures forall i :: 0 <= i < |f.columns| && f.columns[i] !in ColumnMapping(f.columns) ==>
      r.columns[i] == f.columns[i]
  {
    Frame(Rename(f.columns, ColumnMapping(f.columns)), f.rows)
  }

  lemma {:induction false} RenamingUpToSound(table: seq<(string, seq<string>)>, columns: seq<string>, n: nat)
    requires n <= |table|
    ensures forall h :: h in RenamingUpTo(table, columns, n) ==>
      exists i, j :: 0 <= i < n && FirstMatchIn(table, columns, i) == Some(j) && columns[j] == h &&
        RenamingUpTo(table, columns, n)[h] == table[i].0
    ensures forall i :: 0 <= i < n && FirstMatchIn(table, columns, i).Some? ==>
      columns[FirstMatchIn(table, columns, i).value] in RenamingUpTo(table, columns, n)
  {
    if n > 0 {
      RenamingUpToSound(table, columns, n - 1);
      var m := RenamingUpTo(table, columns, n);
      var prev := RenamingUpTo(table, columns, n - 1);
      match FirstMatchIn(table, columns, n - 1)
      case None =>
      case Some(j) =>
        forall h | h in m
          ensures exists i, j ::
            0 <= i < n && FirstMatchIn(table, columns, i) == Some(j) && columns[j] == h && m[h] == table[i].0
        {
          if h == columns[j] {
            assert FirstMatchIn(table, columns, n - 1) == Some(j) && m[h] == table[n - 1].0;
          } else {
            assert h in prev && m[h] == prev[h];
          }
        }
    }
  }

  /**
   * Every renamed header is renamed to a standard name of which it is the first matching header
   * in file order, and every standard name whose aliases match some header claims its first one.
   */
  lemma MappingRenamesFirstMatches(columns: seq<string>)
    ensures forall h :: h in ColumnMapping(columns) ==>
      exists i, j :: 0 <= i < |COLUMN_MAPPING| && FirstMatch(columns, i) == Some(j) && columns[j] == h &&
        ColumnMapping(columns)[h] == StandardName(i)
    ensures forall i :: 0 <= i < |COLUMN_MAPPING| && FirstMatch(columns, i).Some? ==>
      columns[FirstMatch(columns, i).value] in ColumnMapping(columns)
  {
    RenamingUpToSound(COLUMN_MAPPING, columns, |COLUMN_MAPPING|);
    assert forall i :: 0 <= i < |COLUMN_MAPPING| ==>
      FirstMatch(columns, i) == FirstMatchIn(COLUMN_MAPPING, columns, i) && StandardName(i) == COLUMN_MAPPING[i].0;
  }

  /** The 17 standard names of the mapping are distinct. */
  lemma StandardNamesDistinct()
    ensures forall a, b :: 0 <= a < b < |COLUMN_MAPPING| ==> StandardName(a) != StandardName(b)
  {
  }

  /**
   * With distinct headers (as pandas' readers produce), at most one column is renamed to each
   * standard name: the first matching header in file order.
   */
  lemma AtMostOneColumnPerStandardName(columns: seq<string>, i: nat, c: nat)
    requires forall a, b :: 0 <= a < b < |columns| ==> columns[a] != columns[b]
    requires i < |COLUMN_MAPPING| && c < |columns|
    requires columns[c] in ColumnMapping(columns) && ColumnMapping(columns)[columns[c]] == StandardName(i)
    ensures FirstMatch(columns, i) == Some(c)
  {
    RenamedOnlyAsFirstMatch(COLUMN_MAPPING, columns, c);
    var i' :| 0 <= i' < |COLUMN_MAPPING| && FirstMatchIn(COLUMN_MAPPING, columns, i') == Some(c) &&
      COLUMN_MAPPING[i'].0 == ColumnMapping(columns)[columns[c]];
    assert FirstMatch(columns, i') == Some(c) && StandardName(i') == StandardName(i);
    StandardNamesDistinct();
  }

  /** With distinct headers, a renamed header is the first match of the entry whose name it gets. */
  lemma RenamedOnlyAsFirstMatch(table: seq<(string, seq<string>)>, columns: seq<string>, c: nat)
    requires forall a, b :: 0 <= a < b < |columns| ==> columns[a] != columns[b]
    requires c < |columns| && columns[c] in RenamingUpTo(table, columns, |table|)
    ensures exists i' ::
      0 <= i' < |table| && FirstMatchIn(table, columns, i') == Some(c) &&
      table[i'].0 == RenamingUpTo(table, columns, |table|)[columns[c]]
  {
    var m := RenamingUpTo(table, columns, |table|);
    assert exists i', j ::
        0 <= i' < |table| && FirstMatchIn(table, columns, i') == Some(j) && columns[j] == columns[c] &&
        m[columns[c]] == table[i'].0 by {
      RenamingUpToSound(table, columns, |table|);
    }
    var i', j :| 0 <= i' < |table| && FirstMatchIn(table, columns, i') == Some(j) && columns[j] == columns[c] &&
      m[columns[c]] == table[i'].0;
    assert j < |columns|;
    SameHeaderSameIndex(columns, j, c);
  }

  lemma SameHeaderSameIndex(columns: seq<string>, a: nat, b: nat)
    requires forall x, y :: 0 <= x < y < |columns| ==> columns[x] != columns[y]
    requires a < |columns| && b < |columns| && columns[a] == columns[b]
    ensures a == b
  {
  }

  /** A header is recognised in any letter case and with any surrounding whitespace. */
  lemma MatchIgnoresCaseAndPadding(p: string, header: string, q: string, aliases: seq<string>)
    requires AllWhitespace(p) && AllWhitespace(q)
    ensures MatchesAlias(p + header + q, aliases) == MatchesAlias(header, aliases)
    ensures MatchesAlias(Upper(header), aliases) == MatchesAlias(header, aliases)
  {
    StripIgnoresPadding(p, header, q);
    StripUpper(header);
    LowerOfUpper(Strip(header));
  }

  /** A header padded with a no-break space, as spreadsheet exports write it, is still the keyword. */
  lemma NoBreakSpacePadding()
    ensures MatchesAlias("Keyword\U{00A0}", COLUMN_MAPPING[0].1)
  {
    AllWhitespaceNoBreakSpace();
    MatchIgnoresCaseAndPadding("", "Keyword", "\U{00A0}", COLUMN_MAPPING[0].1);
    assert "" + "Keyword" + "\U{00A0}" == "Keyword\U{00A0}";
    assert Strip("Keyword") == "Keyword" by {
      assert StripLeft("Keyword") == "Keyword";
    }
    assert LowerAll(COLUMN_MAPPING[0].1)[0] == Lower("Keyword");
  }

  lemma AllWhitespaceNoBreakSpace()
    ensures AllWhitespace("") && AllWhitespace("\U{00A0}")
  {
  }

  lemma {:induction false} StripUpper(s: string)
    ensures Strip(Upper(s)) == Upper(Strip(s))
  {
    StripLeftUpper(s);
    StripRightUpper(StripLeft(s));
  }

  lemma {:induction false} StripLeftUpper(s: string)
    ensures StripLeft(Upper(s)) == Upper(StripLeft(s))
  {
    if s != [] {
      assert Upper(s)[1..] == Upper(s[1..]);
      StripLeftUpper(s[1..]);
    }
  }

  lemma {:induction false} StripRightUpper(s: string)
    ensures StripRight(Upper(s)) == Upper(StripRight(s))
  {
    if s != [] {
      assert Upper(s)[..|s| - 1] == Upper(s[..|s| - 1]);
      StripRightUpper(s[..|s| - 1]);
    }
  }

  // ---------------------------------------------------------------------------
  // Validation
  // ---------------------------------------------------------------------------

  /** Only names ending in `.csv`, `.xlsx` or `.xls` are read (the test is case-sensitive). */
  predicate SupportedName(name: string) {
    EndsWith(name, ".csv") || EndsWith(name, ".xlsx") || EndsWith(name, ".xls")
  }

  /** The standard names among the first `n` that are not headers, in table order. */
  function MissingUpTo(headers: seq<string>, n: nat): seq<string>
    requires n <= |COLUMN_MAPPING|
  {
    if n == 0 then []
    else MissingUpTo(headers, n - 1) + (if StandardName(n - 1) in headers then [] else [StandardName(n - 1)])
  }

  function MissingStandard(headers: seq<string>): seq<string> {
    MissingUpTo(headers, |COLUMN_MAPPING|)
  }

  lemma {:induction false} MissingUpToIff(headers: seq<string>, n: nat)
    requires n <= |COLUMN_MAPPING|
    ensures forall s :: s in MissingUpTo(headers, n) <==>
      s !in headers && exists i :: 0 <= i < n && StandardName(i) == s
  {
    if n > 0 {
      MissingUpToIff(headers, n - 1);
    }
  }

  /** A standard name is reported missing exactly when no header carries it after renaming. */
  lemma MissingStandardIff(headers: seq<string>)
    ensures forall s :: s in MissingStandard(headers) <==> s in StandardNames() && s !in headers
  {
    MissingUpToIff(headers, |COLUMN_MAPPING|);
    forall s ensures (exists i :: 0 <= i < |COLUMN_MAPPING| && StandardName(i) == s) <==> s in StandardNames() {
      if s in StandardNames() {
        var i :| 0 <= i < |StandardNames()| && StandardNames()[i] == s;
        assert StandardName(i) == s;
      }
      if exists i :: 0 <= i < |COLUMN_MAPPING| && StandardName(i) == s {
        var i :| 0 <= i < |COLUMN_MAPPING| && StandardName(i) == s;
        assert StandardNames()[i] == s;
      }
    }
  }

  /** The loop of `load_file` that lists the standard names absent after renaming. */
  method FindMissingColumns(headers: seq<string>) returns (missing: seq<string>)
    ensures missing == MissingStandard(headers)
  {
    missing := [];
    var i := 0;
    while i < |COLUMN_MAPPING|
      invariant 0 <= i <= |COLUMN_MAPPING|
      invariant missing == MissingUpTo(headers, i)
    {
      if COLUMN_MAPPING[i].0 !in headers {
        missing := missing + [COLUMN_MAPPING[i].0];
      }
      i := i + 1;
    }
  }

  /** The number of headers equal to `name`. */
  function Occurrences(headers: seq<string>, name: string): nat {
    if headers == [] then 0 else (if headers[0] == name then 1 else 0) + Occurrences(headers[1..], name)
  }

  /**
   * A numeric column name carried by two headers (an alias renamed onto a header that already had
   * the standard name): selecting it yields a two-column table, which `pd.to_numeric` refuses.
   */
  function DuplicatedNumeric(headers: seq<string>): Option<string> {
    FirstDuplicated(headers, NUMERIC_COLUMNS)
  }

  function FirstDuplicated(headers: seq<string>, names: seq<string>): (r: Option<string>)
    ensures r.Some? ==> r.value in names && Occurrences(headers, r.value) > 1
    ensures r.None? ==> forall n :: n in names ==> Occurrences(headers, n) <= 1
  {
    if names == [] then None
    else if Occurrences(headers, names[0]) > 1 then Some(names[0])
    else FirstDuplicated(headers, names[1..])
  }

  // ---------------------------------------------------------------------------
  // Cleaning
  // ---------------------------------------------------------------------------

  /** The cell under header `name` (the first such column). */
  function Field(headers: seq<string>, row: seq<Cell>, name: string): Cell {
    match IndexOf(headers, name)
    case Some(j) => CellAt(row, j)
    case None => Blank
  }

  function NumericField(headers: seq<string>, row: seq<Cell>, name: string): Option<real> {
    ToNumeric(Field(headers, row, name))
  }

  /** The coerced and filled columns of one row; the derived fields are still unset (NaN). */
  function Coerced(headers: seq<string>, row: seq<Cell>): KeywordRow {
    var position := NumericField(headers, row, "Position");
    var previous := NumericField(headers, row, "Previous position");
    KeywordRow(
      Field(headers, row, "Keyword"),
      position,
      if previous.Some? then previous else position,
      NumericField(headers, row, "Search Volume"),
      NumericField(headers, row, "Keyword Difficulty").GetOr(50.0),
      NumericField(headers, row, "CPC").GetOr(0.0),
      Field(headers, row, "URL"),
      NumericField(headers, row, "Traffic"),
      NumericField(headers, row, "Traffic (%)"),
      NumericField(headers, row, "Traffic Cost"),
      NumericField(headers, row, "Competition"),
      NumericField(headers, row, "Number of Results"),
      Field(headers, row, "Trends"),
      Field(headers, row, "Timestamp"),
      Field(headers, row, "SERP Features by Keyword"),
      Field(headers, row, "Keyword Intents"),
      Field(headers, row, "Position Type"),
      None, None, None)
  }

  /** The three derived fields, computed from a row's coerced columns. */
  function WithDerived(r: KeywordRow): KeywordRow {
    r.(positionChange := Minus(r.previousPosition, r.position),
       opportunityScore := Quotient(Times(r.searchVolume, r.trafficPercent), Some(r.difficulty + 1.0)),
       competitiveThreat := Times(r.position, r.trafficCost))
  }

  /**
   * `_clean_data` on one row: numbers coerced, a missing previous position replaced by the
   * position, a missing difficulty by 50, a missing cost per click by 0; then the derived fields.
   */
  function CleanRow(headers: seq<string>, row: seq<Cell>): (r: KeywordRow)
    ensures r.keyword == Field(headers, row, "Keyword") && r.url == Field(headers, row, "URL")
    ensures r.position == NumericField(headers, row, "Position")
    ensures r.searchVolume == NumericField(headers, row, "Search Volume")
  {
    WithDerived(Coerced(headers, row))
  }

  /** The defaults `_clean_data` fills in: previous position from position, difficulty 50, cost per click 0. */
  lemma CleanRowDefaults(headers: seq<string>, row: seq<Cell>)
    ensures var r := CleanRow(headers, row);
      && (NumericField(headers, row, "Previous position").Some? ==>
            r.previousPosition == NumericField(headers, row, "Previous position"))
      && (NumericField(headers, row, "Previous position").None? ==> r.previousPosition == r.position)
      && (NumericField(headers, row, "Keyword Difficulty").None? ==> r.difficulty == 50.0)
      && (NumericField(headers, row, "Keyword Difficulty").Some? ==>
            r.difficulty == NumericField(headers, row, "Keyword Difficulty").value)
      && (NumericField(headers, row, "CPC").None? ==> r.cpc == 0.0)
      && (NumericField(headers, row, "CPC").Some? ==> r.cpc == NumericField(headers, row, "CPC").value)
  {
  }

  /** The position change is previous minus current position, and zero when the previous position was missing. */
  lemma CleanRowPositionChange(headers: seq<string>, row: seq<Cell>)
    ensures var r := CleanRow(headers, row);
      && (r.positionChange.Some? <==> r.position.Some?)
      && (r.positionChange.Some? ==>
            r.previousPosition.Some? && r.position.value + r.positionChange.value == r.previousPosition.value)
      && (NumericField(headers, row, "Previous position").None? && r.position.Some? ==>
            r.positionChange == Some(0.0))
  {
  }

  /**
   * The opportunity score is volume times traffic share over difficulty plus one, the competitive
   * threat is position times traffic cost; each is NaN when an operand is, and the columns they
   * are computed from are left as they were.
   */
  lemma DerivedProducts(c: KeywordRow)
    ensures var r := WithDerived(c);
      && r.position == c.position && r.searchVolume == c.searchVolume && r.difficulty == c.difficulty
      && r.trafficPercent == c.trafficPercent && r.trafficCost == c.trafficCost
      && (r.opportunityScore.Some? ==>
            r.searchVolume.Some? && r.trafficPercent.Some? &&
            r.opportunityScore.value * (r.difficulty + 1.0) == r.searchVolume.value * r.trafficPercent.value)
      && (r.competitiveThreat.Some? <==> r.position.Some? && r.trafficCost.Some?)
      && (r.competitiveThreat.Some? ==> r.competitiveThreat.value == r.position.value * r.trafficCost.value)
  {
    QuotientTimes(Times(c.searchVolume, c.trafficPercent), Some(c.difficulty + 1.0));
  }

  /** `_clean_data` over the table, row by row. */
  method CleanData(headers: seq<string>, rows: seq<seq<Cell>>) returns (clean: seq<KeywordRow>)
    ensures |clean| == |rows|
    ensures forall i :: 0 <= i < |rows| ==> clean[i] == CleanRow(headers, rows[i])
  {
    clean := [];
    for i := 0 to |rows|
      invariant |clean| == i
      invariant forall k :: 0 <= k < i ==> clean[k] == CleanRow(headers, rows[k])
    {
      clean := clean + [CleanRow(headers, rows[i])];
    }
  }

  function CleanTable(headers: seq<string>, rows: seq<seq<Cell>>): seq<KeywordRow> {
    seq(|rows|, i requires 0 <= i < |rows| => CleanRow(headers, rows[i]))
  }

  // ---------------------------------------------------------------------------
  // Loading
  // ---------------------------------------------------------------------------

  /** What `load_file` yields for an upload; every failure is a `None` in the source. */
  function Load(file: Option<Upload>): Result<seq<KeywordRow>, LoadError> {
    if file.None? then Failure(NoFile)
    else if !SupportedName(file.value.name) then Failure(UnsupportedFormat)
    else
      var headers := MapFrame(file.value.frame).columns;
      var missing := MissingStandard(headers);
      if missing != [] then Failure(MissingColumns(missing))
      else if DuplicatedNumeric(headers).Some? then Failure(ConversionError(DuplicatedNumeric(headers).value))
      else Success(CleanTable(headers, file.value.frame.rows))
  }

  /**
   * `load_file`: the extension check, the header mapping, the check that all 17 standard
   * columns are present, and cleaning. The reading of the file itself is the `frame` of the upload.
   */
  method LoadFile(file: Option<Upload>) returns (r: Result<seq<KeywordRow>, LoadError>)
    ensures r == Load(file)
  {
    if file.None? {
      return Failure(NoFile);
    }
    var name := file.value.name;
    if !(EndsWith(name, ".csv") || EndsWith(name, ".xlsx") || EndsWith(name, ".xls")) {
      return Failure(UnsupportedFormat);
    }
    var frame := file.value.frame;
    var mapping := MapColumns(frame.columns);
    var headers := Rename(frame.columns, mapping);
    var missing := FindMissingColumns(headers);
    if missing != [] {
      return Failure(MissingColumns(missing));
    }
    var duplicated := DuplicatedNumeric(headers);
    if duplicated.Some? {
      return Failure(ConversionError(duplicated.value));
    }
    var rows := CleanData(headers, frame.rows);
    assert rows == CleanTable(headers, frame.rows);
    return Success(rows);
  }

  /** A file is refused exactly when a standard column is absent after renaming, with that column listed. */
  lemma LoadRejectsMissingColumns(file: Upload, s: string)
    requires SupportedName(file.name)
    requires s in StandardNames() && s !in MapFrame(file.frame).columns
    ensures Load(Some(file)).Failure? && Load(Some(file)).error.MissingColumns?
    ensures s in Load(Some(file)).error.columns
  {
    MissingStandardIff(MapFrame(file.frame).columns);
  }

  /** A successful load keeps every row and cleans each one. */
  lemma LoadKeepsRows(file: Upload)
    requires Load(Some(file)).Success?
    ensures SupportedName(file.name)
    ensures forall s :: s in StandardNames() ==> s in MapFrame(file.frame).columns
    ensures |Load(Some(file)).value| == |file.frame.rows|
    ensures forall i :: 0 <= i < |file.frame.rows| ==>
      Load(Some(file)).value[i] == CleanRow(MapFrame(file.frame).columns, file.frame.rows[i])
  {
    MissingStandardIff(MapFrame(file.frame).columns);
  }

  /** The extension test is case-sensitive and needs the dot. */
  lemma ExtensionExamples()
    ensures SupportedName("ranks.csv") && SupportedName("ranks.xls") && SupportedName("ranks.xlsx")
    ensures !SupportedName("ranks.CSV") && !SupportedName("ranks.txt") && !SupportedName("csv")
  {
    assert "ranks.csv"[5..] == ".csv";
    assert "ranks.xls"[5..] == ".xls";
    assert "ranks.xlsx"[5..] == ".xlsx";
    assert "ranks.CSV"[5..] != ".csv" by { assert "ranks.CSV"[5..][1] != ".csv"[1]; }
    assert "ranks.CSV"[4..] != ".xlsx" by { assert "ranks.CSV"[4..][0] != ".xlsx"[0]; }
    assert "ranks.CSV"[5..] != ".xls" by { assert "ranks.CSV"[5..][1] != ".xls"[1]; }
    assert "ranks.txt"[5..] != ".csv" by { assert "ranks.txt"[5..][1] != ".csv"[1]; }
    assert "ranks.txt"[4..] != ".xlsx" by { assert "ranks.txt"[4..][0] != ".xlsx"[0]; }
    assert "ranks.txt"[5..] != ".xls" by { assert "ranks.txt"[5..][1] != ".xls"[1]; }
    assert "csv"[..] != ".csv";
  }

  // ---------------------------------------------------------------------------
  // validate_files and get_sample_columns
  // ---------------------------------------------------------------------------

  /** `validate_files`: both tables were loaded and neither is empty. */
  predicate ValidateFiles(client: Option<seq<KeywordRow>>, competitor: Option<seq<KeywordRow>>) {
    client.Some? && competitor.Some? && client.value != [] && competitor.value != []
  }

  function AsOption(r: Result<seq<KeywordRow>, LoadError>): Option<seq<KeywordRow>> {
    if r.Success? then Some(r.value) else None
  }

  /** Two uploads validate exactly when both load and each file has at least one row. */
  lemma ValidateLoadedFiles(client: Upload, competitor: Upload)
    ensures ValidateFiles(AsOption(Load(Some(client))), AsOption(Load(Some(competitor)))) <==>
      Load(Some(client)).Success? && Load(Some(competitor)).Success? &&
      client.frame.rows != [] && competitor.frame.rows != []
  {
    if Load(Some(client)).Success? {
      LoadKeepsRows(client);
    }
    if Load(Some(competitor)).Success? {
      LoadKeepsRows(competitor);
    }
  }

  /** `get_sample_columns`: every standard name, and for each its first three accepted spellings. */
  function SampleColumns(): (r: (seq<string>, seq<(string, seq<string>)>))
    ensures r.0 == StandardNames() && |r.1| == |r.0| == 17
    ensures forall i :: 0 <= i < |r.1| ==>
      r.1[i].0 == r.0[i] && |r.1[i].1| == 3 && r.1[i].1 <= COLUMN_MAPPING[i].1
  {
    (StandardNames(),
     seq(|COLUMN_MAPPING|, i requires 0 <= i < |COLUMN_MAPPING| =>
       (COLUMN_MAPPING[i].0, COLUMN_MAPPING[i].1[..if |COLUMN_MAPPING[i].1| < 3 then |COLUMN_MAPPING[i].1| else 3])))
  }
}
