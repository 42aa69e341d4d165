/**
 * The single-page variant of the tool: its own header mapping (exact names, alias-list order),
 * a loader that needs only four essential columns, and a one-pass classifier that routes each
 * merged keyword into at most one of quick wins, steal opportunities and client wins.
 */
module SimpleApp {
  import opened Wrappers
  import opened Cells
  import opened Frames
  import DataLoader

  /** The standard names and the exact header spellings accepted for each, in preference order. */
  const SIMPLE_COLUMN_MAPPING: seq<(string, seq<string>)> := [
    ("Keyword", ["Keyword", "keyword", "Keywords", "keywords", "Search Term", "search term"]),
    ("Position", ["Position", "position", "Rank", "rank", "Current Position"]),
    ("Previous position", ["Previous position", "Previous Position", "Previous Rank", "Last Position"]),
    ("Search Volume", ["Search Volume", "search volume", "Volume", "volume", "Monthly Searches"]),
    ("Keyword Difficulty", ["Keyword Difficulty", "Difficulty", "KD", "Competition Score"]),
    ("CPC", ["CPC", "Cost Per Click", "cost per click", "Avg CPC"]),
    ("URL", ["URL", "url", "Landing Page", "landing page"]),
    ("Traffic", ["Traffic", "traffic", "Est Traffic", "Estimated Traffic"]),
    ("Traffic (%)", ["Traffic (%)", "Traffic %", "traffic %", "Traffic Percentage"]),
    ("Traffic Cost", ["Traffic Cost", "traffic cost", "Value", "Cost"]),
    ("Competition", ["Competition", "competition", "Competitive Density"]),
    ("Number of Results", ["Number of Results", "Results", "SERP Results"]),
    ("Trends", ["Trends", "trends", "Search Trend"]),
    ("Timestamp", ["Timestamp", "Date", "date"]),
    ("SERP Features by Keyword", ["SERP Features", "SERP Features by Keyword", "Features"]),
    ("Keyword Intents", ["Keyword Intents", "Intent", "Search Intent"]),
    ("Position Type", ["Position Type", "Type", "Ranking Type"])
  ]

  /** The columns a file must provide; the others are optional. */
  const ESSENTIAL_COLUMNS: seq<string> := ["Keyword", "Position", "Search Volume", "Keyword Difficulty"]

  /** The position used for a keyword a side does not rank for. */
  const NOT_RANKING: real := 999.0

  // ---------------------------------------------------------------------------
  // Header mapping
  // ---------------------------------------------------------------------------

  /** The first alias, in alias-list order, that is literally one of the headers. */
  function FirstPresentAlias(aliases: seq<string>, headers: seq<string>): (r: Option<string>)
    ensures r.None? <==> forall a :: a in aliases ==> a !in headers
    ensures r.Some? ==> r.value in headers
    ensures r.Some? ==>
      exists i :: 0 <= i < |aliases| && aliases[i] == r.value && forall j :: 0 <= j < i ==> aliases[j] !in headers
  {
    if aliases == [] then None
    else if aliases[0] in headers then Some(aliases[0])
    else
      var r := FirstPresentAlias(aliases[1..], headers);
      assert forall a :: a in aliases ==> a == aliases[0] || a in aliases[1..];
      if r.Some? then
        var i :| 0 <= i < |aliases[1..]| && aliases[1..][i] == r.value &&
          forall j :: 0 <= j < i ==> aliases[1..][j] !in headers;
        assert aliases[i + 1] == r.value;
        assert forall j :: 0 <= j < i + 1 ==> aliases[j] !in headers by {
          forall j | 0 <= j < i + 1 ensures aliases[j] !in headers {
            if j > 0 {
              assert aliases[j] == aliases[1..][j - 1];
            }
          }
        }
        r
      else r
  }

  /** The (standard name, header) pairs of the first `n` entries of `mapping` that some alias provides. */
  function StandardizedUpTo(mapping: seq<(string, seq<string>)>, headers: seq<string>, n: nat): seq<(string, string)>
    requires n <= |mapping|
  {
    if n == 0 then []
    else
      var found := FirstPresentAlias(mapping[n - 1].1, headers);
      StandardizedUpTo(mapping, headers, n - 1) + (if found.Some? then [(mapping[n - 1].0, found.value)] else [])
  }

  function Standardized(headers: seq<string>): seq<(string, string)> {
    StandardizedUpTo(SIMPLE_COLUMN_MAPPING, headers, |SIMPLE_COLUMN_MAPPING|)
  }

  /**
   * The nested loop that fills the standardized table: for each standard name of `mapping`, the
   * first of its aliases, in alias-list order, that is a header of the file.
   */
  method StandardizeColumns(mapping: seq<(string, seq<string>)>, headers: seq<string>) returns (std: seq<(string, string)>)
    ensures std == StandardizedUpTo(mapping, headers, |mapping|)
  {
    std := [];
    var i := 0;
    while i < |mapping|
      invariant 0 <= i <= |mapping|
      invariant std == StandardizedUpTo(mapping, headers, i)
    {
      var found := FindAlias(mapping[i].1, headers);
      if found.Some? {
        std := std + [(mapping[i].0, found.value)];
      }
      i := i + 1;
    }
  }

  /** The inner loop: the aliases in order, stopping at the first that is a header. */
  method FindAlias(aliases: seq<string>, headers: seq<string>) returns (found: Option<string>)
    ensures found == FirstPresentAlias(aliases, headers)
  {
    var j := 0;
    found := None;
    while j < |aliases|
      invariant 0 <= j <= |aliases|
      invariant found.None?
      invariant FirstPresentAlias(aliases, headers) == FirstPresentAlias(aliases[j..], headers)
    {
      if aliases[j] in headers {
        found := Some(aliases[j]);
        break;
      }
      assert aliases[j..][1..] == aliases[j + 1..];
      j := j + 1;
    }
    assert found.None? ==> j == |aliases| && aliases[j..] == [];
  }

  /** The header that provides standard column `name`, if any. */
  function AliasFor(std: seq<(string, string)>, name: string): (r: Option<string>)
    ensures r.Some? <==> exists p :: p in std && p.0 == name
  {
    if std == [] then None
    else if std[0].0 == name then Some(std[0].1)
    else
      assert forall p :: p in std ==> p == std[0] || p in std[1..];
      AliasFor(std[1..], name)
  }

  lemma {:induction false} StandardizedUpToNames(mapping: seq<(string, seq<string>)>, headers: seq<string>, n: nat, name: string)
    requires n <= |mapping|
    ensures AliasFor(StandardizedUpTo(mapping, headers, n), name).Some? <==>
      exists i :: 0 <= i < n && mapping[i].0 == name && FirstPresentAlias(mapping[i].1, headers).Some?
  {
    if n > 0 {
      StandardizedUpToNames(mapping, headers, n - 1, name);
      var prev := StandardizedUpTo(mapping, headers, n - 1);
      var found := FirstPresentAlias(mapping[n - 1].1, headers);
      var last := if found.Some? then [(mapping[n - 1].0, found.value)] else [];
      assert StandardizedUpTo(mapping, headers, n) == prev + last;
      assert forall p :: p in prev + last <==> p in prev || p in last;
    }
  }

  /** No standard name is listed twice. */
  lemma SimpleNamesDistinct()
    ensures forall i, j :: 0 <= i < j < |SIMPLE_COLUMN_MAPPING| ==> SIMPLE_COLUMN_MAPPING[i].0 != SIMPLE_COLUMN_MAPPING[j].0
  {
    var names := seq(|SIMPLE_COLUMN_MAPPING|, i requires 0 <= i < |SIMPLE_COLUMN_MAPPING| => SIMPLE_COLUMN_MAPPING[i].0);
    assert names == ["Keyword", "Position", "Previous position", "Search Volume", "Keyword Difficulty", "CPC", "URL",
                     "Traffic", "Traffic (%)", "Traffic Cost", "Competition", "Number of Results", "Trends",
                     "Timestamp", "SERP Features by Keyword", "Keyword Intents", "Position Type"];
  }

  /**
   * A standard column is present exactly when one of its aliases is literally a header: the
   * match is exact, with no case folding and no whitespace stripping.
   */
  lemma StandardizedIff(headers: seq<string>, i: nat)
    requires i < |SIMPLE_COLUMN_MAPPING|
    ensures AliasFor(Standardized(headers), SIMPLE_COLUMN_MAPPING[i].0).Some? <==>
      exists a :: a in SIMPLE_COLUMN_MAPPING[i].1 && a in headers
  {
    var m := SIMPLE_COLUMN_MAPPING;
    var name := m[i].0;
    StandardizedUpToNames(m, headers, |m|, name);
    if AliasFor(Standardized(headers), name).Some? {
      var i' :| 0 <= i' < |m| && m[i'].0 == name && FirstPresentAlias(m[i'].1, headers).Some?;
      SimpleNamesDistinct();
      assert i' == i;
    }
  }

  /** Where several aliases are headers, the one earlier in the alias list wins, wherever it stands in the file. */
  lemma AliasOrderWins()
    ensures FirstPresentAlias(SIMPLE_COLUMN_MAPPING[3].1, ["Volume", "Search Volume"]) == Some("Search Volume")
  {
    assert SIMPLE_COLUMN_MAPPING[3].1[0] == "Search Volume";
    assert "Search Volume" in ["Volume", "Search Volume"];
  }

  /** Aliases match exactly: a different letter case or a leading space is not recognised. */
  lemma ExactAliasesOnly()
    ensures FirstPresentAlias(SIMPLE_COLUMN_MAPPING[0].1, ["KEYWORD", " Keyword"]) == None
  {
  }

  // ---------------------------------------------------------------------------
  // Loading
  // ---------------------------------------------------------------------------

  /** A cleaned row of the simple loader (None: NaN); `cpc` is None when the file has no CPC column. */
  datatype SimpleRow = SimpleRow(
    keyword: Cell,
    position: Option<real>,
    previousPosition: Option<real>,
    searchVolume: Option<real>,
    difficulty: real,
    cpc: Option<real>,
    positionChange: Option<real>,
    opportunityScore: Option<real>)

  /** A loaded table: the standard names it has, in mapping order, and its rows. */
  datatype SimpleTable = SimpleTable(columns: seq<string>, rows: seq<SimpleRow>)

  /** The cell of standard column `name`, read from the header that provides it. */
  function StandardCell(headers: seq<string>, std: seq<(string, string)>, row: seq<Cell>, name: string): Cell {
    match AliasFor(std, name)
    case Some(a) => DataLoader.Field(headers, row, a)
    case None => Blank
  }

  /** The coerced and filled columns of one row, before the derived fields. */
  function SimpleCoerced(headers: seq<string>, std: seq<(string, string)>, row: seq<Cell>): SimpleRow {
    var position := ToNumeric(StandardCell(headers, std, row, "Position"));
    var previous := ToNumeric(StandardCell(headers, std, row, "Previous position"));
    SimpleRow(
      StandardCell(headers, std, row, "Keyword"),
      position,
      if previous.Some? then previous else position,
      ToNumeric(StandardCell(headers, std, row, "Search Volume")),
      ToNumeric(StandardCell(headers, std, row, "Keyword Difficulty")).GetOr(50.0),
      if AliasFor(std, "CPC").Some? then Some(ToNumeric(StandardCell(headers, std, row, "CPC")).GetOr(0.0)) else None,
      None,
      None)
  }

  /** Position change = previous - current; opportunity score = volume * 0.1 / (difficulty + 1). */
  function WithSimpleDerived(r: SimpleRow): SimpleRow {
    r.(positionChange := Minus(r.previousPosition, r.position),
       opportunityScore := Quotient(Times(r.searchVolume, Some(0.1)), Some(r.difficulty + 1.0)))
  }

  function SimpleClean(headers: seq<string>, std: seq<(string, string)>, row: seq<Cell>): SimpleRow {
    WithSimpleDerived(SimpleCoerced(headers, std, row))
  }

  /** The names of the standardized columns. */
  function Names(std: seq<(string, string)>): (r: seq<string>)
    ensures |r| == |std| && forall i :: 0 <= i < |std| ==> r[i] == std[i].0
  {
    seq(|std|, i requires 0 <= i < |std| => std[i].0)
  }

  predicate HasEssentials(std: seq<(string, string)>) {
    forall e :: e in ESSENTIAL_COLUMNS ==> AliasFor(std, e).Some?
  }

  /**
   * `load_and_validate_csv` from the parsed table on: nothing for an empty table or one lacking
   * an essential column, otherwise the standardized and cleaned rows.
   */
  function LoadSimple(f: Frame): Option<SimpleTable> {
    if f.rows == [] || f.columns == [] then None
    else
      var std := Standardized(f.columns);
      if !HasEssentials(std) then None
      else Some(SimpleTable(Names(std), seq(|f.rows|, i requires 0 <= i < |f.rows| => SimpleClean(f.columns, std, f.rows[i]))))
  }

  /** The loader's steps: the mapping loop, the essential-column check, and the row-by-row cleaning. */
  method LoadAndValidateCsv(f: Frame) returns (r: Option<SimpleTable>)
    ensures r == LoadSimple(f)
  {
    if f.rows == [] || f.columns == [] {
      return None;
    }
    var std := StandardizeColumns(SIMPLE_COLUMN_MAPPING, f.columns);
    if !HasEssentials(std) {
      return None;
    }
    var rows: seq<SimpleRow> := [];
    for i := 0 to |f.rows|
      invariant |rows| == i
      invariant forall j :: 0 <= j < i ==> rows[j] == SimpleClean(f.columns, std, f.rows[j])
    {
      rows := rows + [SimpleClean(f.columns, std, f.rows[i])];
    }
    assert rows == seq(|f.rows|, i requires 0 <= i < |f.rows| => SimpleClean(f.columns, std, f.rows[i]));
    return Some(SimpleTable(Names(std), rows));
  }

  /** None of the aliases of the `i`-th standard name is a header. */
  predicate NoAliasOf(i: nat, headers: seq<string>)
    requires i < |SIMPLE_COLUMN_MAPPING|
  {
    forall a :: a in SIMPLE_COLUMN_MAPPING[i].1 ==> a !in headers
  }

  /**
   * A table is refused exactly when it is empty or no alias of Keyword, Position, Search Volume
   * or Keyword Difficulty (the mapping's entries 0, 1, 3 and 4) is among its headers.
   */
  lemma LoadSimpleRefuses(f: Frame)
    ensures LoadSimple(f).None? <==>
      f.rows == [] || f.columns == [] ||
      NoAliasOf(0, f.columns) || NoAliasOf(1, f.columns) || NoAliasOf(3, f.columns) || NoAliasOf(4, f.columns)
  {
    var std := Standardized(f.columns);
    EssentialsInTheMapping();
    StandardizedIff(f.columns, 0);
    StandardizedIff(f.columns, 1);
    StandardizedIff(f.columns, 3);
    StandardizedIff(f.columns, 4);
    var m := SIMPLE_COLUMN_MAPPING;
    assert HasEssentials(std) <==>
      AliasFor(std, m[0].0).Some? && AliasFor(std, m[1].0).Some? &&
      AliasFor(std, m[3].0).Some? && AliasFor(std, m[4].0).Some?;
  }

  lemma EssentialsInTheMapping()
    ensures ESSENTIAL_COLUMNS == [SIMPLE_COLUMN_MAPPING[0].0, SIMPLE_COLUMN_MAPPING[1].0,
                                  SIMPLE_COLUMN_MAPPING[3].0, SIMPLE_COLUMN_MAPPING[4].0]
  {
  }

  /**
   * A loaded row: a missing previous position (absent column or empty cell) is the position, a
   * missing difficulty is 50, a missing cost per click is 0 when the column exists.
   */
  lemma SimpleCleanFills(headers: seq<string>, std: seq<(string, string)>, row: seq<Cell>)
    ensures var r := SimpleClean(headers, std, row);
      var prev := ToNumeric(StandardCell(headers, std, row, "Previous position"));
      && r.position == ToNumeric(StandardCell(headers, std, row, "Position"))
      && (prev.None? ==> r.previousPosition == r.position)
      && (prev.Some? ==> r.previousPosition == prev)
      && (AliasFor(std, "Previous position").None? ==> r.previousPosition == r.position)
      && (ToNumeric(StandardCell(headers, std, row, "Keyword Difficulty")).None? ==> r.difficulty == 50.0)
      && (r.cpc.Some? <==> AliasFor(std, "CPC").Some?)
      && (r.cpc.Some? && ToNumeric(StandardCell(headers, std, row, "CPC")).None? ==> r.cpc.value == 0.0)
  {
  }

  /**
   * The derived fields: the change is previous minus current position, zero when the previous
   * position was missing; the opportunity score times (difficulty + 1) is a tenth of the volume.
   */
  lemma SimpleDerived(c: SimpleRow)
    ensures var r := WithSimpleDerived(c);
      && (r.positionChange.Some? <==> c.position.Some? && c.previousPosition.Some?)
      && (r.positionChange.Some? ==> c.position.value + r.positionChange.value == c.previousPosition.value)
      && (c.previousPosition == c.position && c.position.Some? ==> r.positionChange == Some(0.0))
      && (r.opportunityScore.Some? ==>
            c.searchVolume.Some? && r.opportunityScore.value * (c.difficulty + 1.0) == c.searchVolume.value * 0.1)
      && (c.searchVolume.Some? && c.difficulty + 1.0 != 0.0 ==> r.opportunityScore.Some?)
  {
    QuotientTimes(Times(c.searchVolume, Some(0.1)), Some(c.difficulty + 1.0));
  }

  // ---------------------------------------------------------------------------
  // Gap analysis
  // ---------------------------------------------------------------------------

  /** The five columns the analysis keeps of a row that passed the volume and difficulty filter. */
  datatype Selected = Selected(keyword: Cell, position: Option<real>, searchVolume: real, difficulty: real, cpc: real)

  function SelectedKey(s: Selected): Cell { s.keyword }

  predicate PassesFilter(r: SimpleRow, minVolume: real, maxDifficulty: real) {
    r.searchVolume.Some? && r.searchVolume.value >= minVolume && r.difficulty <= maxDifficulty
  }

  /** The merged columns of a row; it is applied to passing rows only, whose volume is present. */
  function SelectedOf(r: SimpleRow): Selected {
    Selected(r.keyword, r.position, r.searchVolume.GetOr(0.0), r.difficulty, r.cpc.GetOr(0.0))
  }

  /** The boolean mask of the volume and difficulty filter: the passing rows, each as often as in the table. */
  function PassingRows(rows: seq<SimpleRow>, minVolume: real, maxDifficulty: real): (r: seq<SimpleRow>)
    ensures |r| <= |rows|
    ensures forall i :: 0 <= i < |r| ==> PassesFilter(r[i], minVolume, maxDifficulty)
    ensures forall x :: multiset(r)[x] == if PassesFilter(x, minVolume, maxDifficulty) then multiset(rows)[x] else 0
  {
    if rows == [] then []
    else
      assert rows == [rows[0]] + rows[1..];
      (if PassesFilter(rows[0], minVolume, maxDifficulty) then [rows[0]] else []) +
      PassingRows(rows[1..], minVolume, maxDifficulty)
  }

  /**
   * The rows with volume at least `minVolume` and difficulty at most `maxDifficulty` (both
   * inclusive; a missing volume fails), cut down to the merged columns, a missing cost per click
   * read as 0.
   */
  function SelectForMerge(rows: seq<SimpleRow>, minVolume: real, maxDifficulty: real): (r: seq<Selected>)
    ensures |r| <= |rows|
    ensures forall s :: s in r ==> s.searchVolume >= minVolume && s.difficulty <= maxDifficulty
    ensures forall x :: x in rows && PassesFilter(x, minVolume, maxDifficulty) ==> SelectedOf(x) in r
    ensures forall s :: s in r ==> exists x :: x in rows && PassesFilter(x, minVolume, maxDifficulty) && s == SelectedOf(x)
  {
    if rows == [] then []
    else
      var rest := SelectForMerge(rows[1..], minVolume, maxDifficulty);
      assert forall x :: x in rows <==> x == rows[0] || x in rows[1..];
      if PassesFilter(rows[0], minVolume, maxDifficulty) then [SelectedOf(rows[0])] + rest else rest
  }

  /**
   * The selection is, row by row, the passing rows cut down to the merged columns, so a repeated
   * passing row is selected as often as it occurs.
   */
  lemma {:induction false} SelectionOfPassingRows(rows: seq<SimpleRow>, minVolume: real, maxDifficulty: real)
    ensures |SelectForMerge(rows, minVolume, maxDifficulty)| == |PassingRows(rows, minVolume, maxDifficulty)|
    ensures forall i :: 0 <= i < |SelectForMerge(rows, minVolume, maxDifficulty)| ==>
      SelectForMerge(rows, minVolume, maxDifficulty)[i] == SelectedOf(PassingRows(rows, minVolume, maxDifficulty)[i])
  {
    if rows != [] {
      var sel, rest := SelectForMerge(rows, minVolume, maxDifficulty), SelectForMerge(rows[1..], minVolume, maxDifficulty);
      var pass, passRest := PassingRows(rows, minVolume, maxDifficulty), PassingRows(rows[1..], minVolume, maxDifficulty);
      SelectionOfPassingRows(rows[1..], minVolume, maxDifficulty);
      var passes := PassesFilter(rows[0], minVolume, maxDifficulty);
      SelectionStep(rows, minVolume, maxDifficulty);
      if passes {
        forall i | 0 <= i < |sel| ensures sel[i] == SelectedOf(pass[i]) {
          if i > 0 {
            assert sel[i] == rest[i - 1] && pass[i] == passRest[i - 1];
          }
        }
      }
    }
  }

  /** Both the selection and the mask take the first row exactly when it passes. */
  lemma SelectionStep(rows: seq<SimpleRow>, minVolume: real, maxDifficulty: real)
    requires rows != []
    ensures PassesFilter(rows[0], minVolume, maxDifficulty) ==>
      SelectForMerge(rows, minVolume, maxDifficulty) ==
        [SelectedOf(rows[0])] + SelectForMerge(rows[1..], minVolume, maxDifficulty) &&
      PassingRows(rows, minVolume, maxDifficulty) == [rows[0]] + PassingRows(rows[1..], minVolume, maxDifficulty)
    ensures !PassesFilter(rows[0], minVolume, maxDifficulty) ==>
      SelectForMerge(rows, minVolume, maxDifficulty) == SelectForMerge(rows[1..], minVolume, maxDifficulty) &&
      PassingRows(rows, minVolume, maxDifficulty) == PassingRows(rows[1..], minVolume, maxDifficulty)
  {
  }

  /** The selection as written: it names the CPC column, which a file may lack; None is the KeyError. */
  function SelectForMergeAsWritten(t: SimpleTable, minVolume: real, maxDifficulty: real): Option<seq<Selected>> {
    if "CPC" !in t.columns then None else Some(SelectForMerge(t.rows, minVolume, maxDifficulty))
  }

  /**
   * A file with the four essential columns and no cost-per-click header loads, yet the analysis
   * of it fails at the selection, whatever the thresholds.
   */
  lemma MissingCpcBreaksAnalysis(f: Frame, minVolume: real, maxDifficulty: real)
    requires f.rows != []
    requires "Keyword" in f.columns && "Position" in f.columns
    requires "Search Volume" in f.columns && "Keyword Difficulty" in f.columns
    requires forall a :: a in SIMPLE_COLUMN_MAPPING[5].1 ==> a !in f.columns
    ensures LoadSimple(f).Some?
    ensures SelectForMergeAsWritten(LoadSimple(f).value, minVolume, maxDifficulty).None?
  {
    EssentialHeadersLoad(f);
    var std := Standardized(f.columns);
    assert SIMPLE_COLUMN_MAPPING[5].0 == "CPC";
    StandardizedIff(f.columns, 5);
    assert AliasFor(std, "CPC").None?;
    UnprovidedNotNamed(std, "CPC");
    assert LoadSimple(f).value.columns == Names(std);
  }

  /** A standard name no header provides is not a column of the loaded table. */
  lemma UnprovidedNotNamed(std: seq<(string, string)>, name: string)
    requires AliasFor(std, name).None?
    ensures name !in Names(std)
  {
  }

  /** A non-empty table whose headers include the four essential names verbatim loads. */
  lemma EssentialHeadersLoad(f: Frame)
    requires f.rows != []
    requires "Keyword" in f.columns && "Position" in f.columns
    requires "Search Volume" in f.columns && "Keyword Difficulty" in f.columns
    ensures LoadSimple(f).Some?
  {
    LoadSimpleRefuses(f);
    assert "Keyword" in SIMPLE_COLUMN_MAPPING[0].1;
    assert "Position" in SIMPLE_COLUMN_MAPPING[1].1;
    assert "Search Volume" in SIMPLE_COLUMN_MAPPING[3].1;
    assert "Keyword Difficulty" in SIMPLE_COLUMN_MAPPING[4].1;
  }

  /** With a CPC column, the selection as written is the model's selection. */
  lemma SelectAsWrittenAgrees(t: SimpleTable, minVolume: real, maxDifficulty: real)
    requires "CPC" in t.columns
    ensures SelectForMergeAsWritten(t, minVolume, maxDifficulty) == Some(SelectForMerge(t.rows, minVolume, maxDifficulty))
  {
  }

  /** A side's position in a merged row; a side without the keyword, or without a position, is 999. */
  function SidePos(s: Option<Selected>): real {
    if s.Some? && s.value.position.Some? then s.value.position.value else NOT_RANKING
  }

  datatype ClientRank = NotRanking | Rank(position: int)

  datatype QuickWinEntry = QuickWinEntry(
    keyword: Cell, clientPosition: int, competitorPosition: int, searchVolume: int, difficulty: int,
    opportunityScore: real)

  datatype StealEntry = StealEntry(
    keyword: Cell, clientPosition: ClientRank, competitorPosition: int, searchVolume: int, difficulty: int,
    cpc: real)

  datatype ClientWinEntry = ClientWinEntry(
    keyword: Cell, clientPosition: int, competitorPosition: int, searchVolume: int, advantage: int)

  /** Where one merged row is listed. */
  datatype Listing =
    | InQuickWins(quickWin: QuickWinEntry)
    | InSteal(steal: StealEntry)
    | InClientWins(clientWin: ClientWinEntry)
    | NotListed

  predicate QuickWinRule(c: real, k: real) {
    6.0 <= c <= 10.0 && 1.0 <= k <= 5.0
  }

  predicate StealRule(c: real, k: real) {
    1.0 <= k <= 3.0 && (c > 11.0 || c == NOT_RANKING)
  }

  predicate ClientWinRule(c: real, k: real) {
    c < k && c <= 10.0
  }

  /**
   * The row loop reads the cells as plain Python numbers, so a quick win's score
   * volume / (difficulty + 1) raises ZeroDivisionError when the client difficulty is -1.
   */
  predicate ScoreRaises(p: Joined<Selected>) {
    QuickWinRule(SidePos(p.left), SidePos(p.right)) && p.left.value.difficulty + 1.0 == 0.0
  }

  /** The `if/elif` chain: quick win first, then steal, then client win. */
  function ListingOf(p: Joined<Selected>): Listing
    requires !ScoreRaises(p)
  {
    var c := SidePos(p.left);
    var k := SidePos(p.right);
    if QuickWinRule(c, k) then
      var l := p.left.value;
      InQuickWins(QuickWinEntry(p.key, Trunc(c), Trunc(k), Trunc(l.searchVolume), Trunc(l.difficulty),
                                l.searchVolume / (l.difficulty + 1.0)))
    else if StealRule(c, k) then
      var q := p.right.value;
      InSteal(StealEntry(p.key, if c == NOT_RANKING then NotRanking else Rank(Trunc(c)), Trunc(k),
                         Trunc(q.searchVolume), Trunc(q.difficulty), q.cpc))
    else if ClientWinRule(c, k) then
      var l := p.left.value;
      InClientWins(ClientWinEntry(p.key, Trunc(c), Trunc(k), Trunc(l.searchVolume), Trunc(k - c)))
    else NotListed
  }

  /** The four lists of the analysis; `contentGaps` is never appended to. */
  datatype Analysis = Analysis(
    quickWins: seq<QuickWinEntry>,
    stealOpportunities: seq<StealEntry>,
    clientWins: seq<ClientWinEntry>,
    contentGaps: seq<Cell>)

  function Append(a: Analysis, l: Listing): Analysis {
    match l
    case InQuickWins(e) => a.(quickWins := a.quickWins + [e])
    case InSteal(e) => a.(stealOpportunities := a.stealOpportunities + [e])
    case InClientWins(e) => a.(clientWins := a.clientWins + [e])
    case NotListed => a
  }

  /** The lists after the rows of `rows`, in order; `None` once a row's score raises. */
  function AnalysisOf(rows: seq<Joined<Selected>>): Option<Analysis> {
    if rows == [] then Some(Analysis([], [], [], []))
    else
      var last := rows[|rows| - 1];
      match AnalysisOf(rows[..|rows| - 1])
      case None => None
      case Some(a) => if ScoreRaises(last) then None else Some(Append(a, ListingOf(last)))
  }

  /** The merged table of the two filtered sides. */
  function MergeSelected(client: SimpleTable, competitor: SimpleTable, minVolume: real, maxDifficulty: real)
    : seq<Joined<Selected>>
  {
    OuterJoin(SelectForMerge(client.rows, minVolume, maxDifficulty),
              SelectForMerge(competitor.rows, minVolume, maxDifficulty), SelectedKey)
  }

  /**
   * `analyze_keyword_gaps`: filter, outer-join, then one pass appending each row to at most one
   * list; `None` when a quick-win score divides by zero.
   */
  method AnalyzeKeywordGaps(client: SimpleTable, competitor: SimpleTable, minVolume: real, maxDifficulty: real)
    returns (analysis: Option<Analysis>)
    ensures analysis == AnalysisOf(MergeSelected(client, competitor, minVolume, maxDifficulty))
    ensures analysis.None? <==>
      exists p :: p in MergeSelected(client, competitor, minVolume, maxDifficulty) && ScoreRaises(p)
    ensures analysis.Some? ==>
      analysis.value.contentGaps == [] &&
      |analysis.value.quickWins| + |analysis.value.stealOpportunities| + |analysis.value.clientWins| <=
      |MergeSelected(client, competitor, minVolume, maxDifficulty)|
  {
    var clientFiltered := SelectForMerge(client.rows, minVolume, maxDifficulty);
    var competitorFiltered := SelectForMerge(competitor.rows, minVolume, maxDifficulty);
    var merged := OuterJoin(clientFiltered, competitorFiltered, SelectedKey);
    AnalysisOfSpec(merged);
    var lists := Analysis([], [], [], []);
    var i := 0;
    while i < |merged|
      invariant 0 <= i <= |merged|
      invariant AnalysisOf(merged[..i]) == Some(lists)
    {
      if ScoreRaises(merged[i]) {
        return None;
      }
      AnalysisOfStep(merged, i);
      lists := Append(lists, ListingOf(merged[i]));
      i := i + 1;
    }
    assert merged[..i] == merged;
    analysis := Some(lists);
  }

  /** One more row of the merged table appends its listing, or raises. */
  lemma AnalysisOfStep(rows: seq<Joined<Selected>>, i: nat)
    requires i < |rows|
    ensures AnalysisOf(rows[..i + 1]) ==
      match AnalysisOf(rows[..i])
      case None => None
      case Some(a) => if ScoreRaises(rows[i]) then None else Some(Append(a, ListingOf(rows[i])))
  {
    assert rows[..i + 1][..i] == rows[..i];
  }

  /** The routes exclude each other in the order the row loop checks them. */
  lemma RoutesInOrder(c: real, k: real)
    ensures QuickWinRule(c, k) ==> k < c
    ensures StealRule(c, k) && !QuickWinRule(c, k) ==> k < c
    ensures ClientWinRule(c, k) ==> !QuickWinRule(c, k) && !StealRule(c, k)
  {
  }

  /** Position 11 is neither a steal nor a quick win nor a client win against a top-3 competitor. */
  lemma ElevenIsUnlisted(k: real)
    requires 1.0 <= k <= 3.0
    ensures !QuickWinRule(11.0, k) && !StealRule(11.0, k) && !ClientWinRule(11.0, k)
  {
  }

  /** A quick win at client difficulty -1 raises, whatever else the table holds. */
  lemma {:induction false} MinusOneDifficultyRaises(rows: seq<Joined<Selected>>, i: nat)
    requires i < |rows| && rows[i].left.Some? && rows[i].left.value.difficulty == -1.0
    requires QuickWinRule(SidePos(rows[i].left), SidePos(rows[i].right))
    ensures AnalysisOf(rows) == None
  {
    AnalysisOfSpec(rows);
    assert rows[i] in rows && ScoreRaises(rows[i]);
  }

  /**
   * What each listed row holds: a quick win's score times (difficulty + 1) is its volume, a steal
   * says "Not ranking" exactly for position 999, a client win's advantage is never negative and
   * at least 1 when the positions differ by at least 1.
   */
  lemma ListingFacts(p: Joined<Selected>)
    requires !ScoreRaises(p)
    ensures ListingOf(p).InQuickWins? ==>
      p.left.Some? && QuickWinRule(SidePos(p.left), SidePos(p.right)) &&
      ListingOf(p).quickWin.opportunityScore * (p.left.value.difficulty + 1.0) == p.left.value.searchVolume
    ensures ListingOf(p).InSteal? ==>
      p.right.Some? && StealRule(SidePos(p.left), SidePos(p.right)) && !QuickWinRule(SidePos(p.left), SidePos(p.right)) &&
      (ListingOf(p).steal.clientPosition.NotRanking? <==> SidePos(p.left) == NOT_RANKING)
    ensures ListingOf(p).InClientWins? ==>
      p.left.Some? && ClientWinRule(SidePos(p.left), SidePos(p.right)) &&
      ListingOf(p).clientWin.advantage >= 0 &&
      (SidePos(p.right) - SidePos(p.left) >= 1.0 ==> ListingOf(p).clientWin.advantage >= 1)
    ensures ListingOf(p).NotListed? <==>
      !QuickWinRule(SidePos(p.left), SidePos(p.right)) && !StealRule(SidePos(p.left), SidePos(p.right)) &&
      !ClientWinRule(SidePos(p.left), SidePos(p.right))
  {
    var c := SidePos(p.left);
    var k := SidePos(p.right);
    if ListingOf(p).InClientWins? {
      TruncMonotone(k - c);
    }
  }

  lemma TruncMonotone(x: real)
    ensures x >= 0.0 ==> Trunc(x) >= 0
    ensures x >= 1.0 ==> Trunc(x) >= 1
  {
  }

  /**
   * The analysis fails exactly when some merged row's quick-win score divides by zero; otherwise
   * a merged row is listed at most once, in the list its route names, in table order.
   */
  lemma {:induction false} AnalysisOfSpec(rows: seq<Joined<Selected>>)
    ensures AnalysisOf(rows).None? <==> exists p :: p in rows && ScoreRaises(p)
    ensures AnalysisOf(rows).Some? ==>
      var a := AnalysisOf(rows).value;
      a.contentGaps == [] &&
      |a.quickWins| + |a.stealOpportunities| + |a.clientWins| <= |rows| &&
      (forall e :: e in a.quickWins <==> exists p :: p in rows && !ScoreRaises(p) && ListingOf(p) == InQuickWins(e)) &&
      (forall e :: e in a.stealOpportunities <==> exists p :: p in rows && !ScoreRaises(p) && ListingOf(p) == InSteal(e)) &&
      (forall e :: e in a.clientWins <==> exists p :: p in rows && !ScoreRaises(p) && ListingOf(p) == InClientWins(e))
  {
    if rows != [] {
      var init := rows[..|rows| - 1];
      AnalysisOfSpec(init);
      assert forall p :: p in rows <==> p in init || p == rows[|rows| - 1];
    }
  }
}
