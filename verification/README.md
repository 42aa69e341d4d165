# Keyword gap analysis — a verified model of the comparison engine

This project models the decision logic of an SEO keyword-gap tool. The tool compares a client's
keyword rankings with a competitor's. The modelled logic has four parts:

- **Loading** (`utils/data_loader.py`, and the simpler loader of `app_simple.py`).
  - Column headers are mapped onto 17 standard names through alias tables.
  - Files that lack required columns are refused.
  - Numbers are coerced. Missing values get defaults: previous position from position,
    difficulty 50, cost per click 0.
  - Three fields are derived: position change, opportunity score and competitive threat.
- **Analysis** (`core/analyzer.py`, class `KeywordGapAnalyzer`).
  - Each side is collapsed to one row per keyword, the row with the best position, with all of
    that keyword's URLs collected.
  - The two sides are outer-joined on keyword. A missing position becomes the sentinel 999 and a
    missing number becomes 0.
  - Filters select quick wins, steal opportunities, defensive keywords, client wins, funnel
    stages and trending keywords.
  - A formatter adds a priority score and sorts by it.
  - An executive summary gives per-side metrics, traffic market share and the overall
    opportunity.
- **The single-pass classifier** of `app_simple.py` (`analyze_keyword_gaps`).
  - It filters both sides by volume and difficulty and outer-joins them.
  - It routes every joined row into at most one list.
- **Chart rules** (`visualization/charts.py`).
  - Position buckets and per-bucket traffic totals.
  - The opportunity-matrix filter and score.
  - The opportunity type and differences of the competitive analysis table.

The files, one module each:

- `wrappers.dfy`: `Option` and `Result`.
- `cells.dfy` (`Cells`): a table cell is a number, a text or blank (NaN). The file also holds
  pandas' coercions, NaN-propagating arithmetic and the string helpers (strip, lower, contains,
  join).
- `frames.dfy` (`Frames`): a raw table (headers plus rows), key lookup, and the pandas outer join.
  - The outer join produces every pairing of equal keys, then the keys of the right side that are
    missing on the left.
  - It is written once, generically, and used by all three joins of the program.
- `data_loader.dfy` (`DataLoader`): the loader. `MapColumns`, `FindMissingColumns`, `CleanData`
  and `LoadFile` are loops, proved against the functions `ColumnMapping`, `MissingStandard`,
  `CleanRow` and `Load`.
- `analyzer.dfy` (`Analyzer`): the analyzer.
  - Its class has the three tables as fields. `LoadData` and `MergeData` update them.
  - The getters are `reads this` functions of the merged table.
- `app_simple.dfy` (`SimpleApp`): the simple loader and the single-pass classifier. Both are
  loops proved against `LoadSimple` and `AnalysisOf`.
- `charts.dfy` (`Charts`): the chart rules. Adding the position range works in place on arrays.

Modelling conventions:

- A missing or unparsable number (NaN) is `None`.
- Positions, volumes and costs are exact reals.
- A division by zero, which pandas turns into inf or NaN, is `None`.
- Python's `int()` truncates toward zero (`Cells.Trunc`).

## Model

| member | source | states |
|---|---|---|
| DataLoader.FirstMatchFrom | utils/data_loader.py:76-79 | the index found is the first header, from the given position on, whose stripped lower-case form is one of the lower-cased aliases; no earlier header matches |
| DataLoader.MapColumns | utils/data_loader.py:70-81 | the nested loop with `break` builds exactly `ColumnMapping`: for each standard name in table order, its first matching header in file order |
| DataLoader.MappingRenamesFirstMatches | utils/data_loader.py:73-79 | every renamed header is the first match of some standard name and is renamed to that name; every standard name that has a match has its first match renamed |
| DataLoader.RenamingUpToSound | utils/data_loader.py:75-79 | the same two facts for the first `n` entries of any alias table, by induction over the loop of standard names |
| DataLoader.RenamedOnlyAsFirstMatch | utils/data_loader.py:75-79 | with distinct headers, a header that the renaming turns into a standard name is the first match of some entry of the alias table |
| DataLoader.StandardNamesDistinct | utils/data_loader.py:10-28 | the 17 standard names of the mapping are distinct |
| DataLoader.AtMostOneColumnPerStandardName | utils/data_loader.py:75-79 | with distinct headers, a header renamed to a standard name is the first match of that very standard name, so each standard name is given to at most one column |
| DataLoader.NoBreakSpacePadding | utils/data_loader.py:77 | the header "Keyword" followed by a no-break space (U+00A0) matches the keyword aliases |
| DataLoader.MatchIgnoresCaseAndPadding | utils/data_loader.py:77 | adding surrounding whitespace (any character `strip()` removes, the no-break space included) or upper-casing a header does not change whether it matches an alias list |
| DataLoader.MapFrame | utils/data_loader.py:72-81 | renaming keeps the rows and the number of columns; headers without a match keep their names |
| DataLoader.Rename | utils/data_loader.py:81 | `rename` keeps the number of columns |
| DataLoader.MissingUpToIff | utils/data_loader.py:50-53 | a name is listed missing iff it is one of the first `n` standard names and not a header |
| DataLoader.MissingStandardIff | utils/data_loader.py:50-55 | the missing list holds exactly the standard names absent after mapping |
| DataLoader.FindMissingColumns | utils/data_loader.py:50-53 | the loop appends the absent standard names in mapping order, giving `MissingStandard` |
| DataLoader.FirstDuplicated | utils/data_loader.py:96-98 | a reported name is a numeric column carried by two headers; if none is reported, every numeric column occurs at most once, so coercion cannot meet a two-column selection |
| DataLoader.CleanRow | utils/data_loader.py:84-112 | cleaning keeps the keyword and URL cells, and position and search volume are the coerced cells of those columns |
| DataLoader.CleanRowDefaults | utils/data_loader.py:101-103 | a missing previous position becomes the position, a missing difficulty 50 and a missing cost per click 0; present values are kept |
| DataLoader.CleanRowPositionChange | utils/data_loader.py:101-106 | position change is defined iff the position is, satisfies position + change = previous, and is 0 where the previous position was missing |
| DataLoader.DerivedProducts | utils/data_loader.py:106-110 | opportunity score × (difficulty + 1) = volume × traffic share; competitive threat is defined iff position and traffic cost are, and equals their product |
| DataLoader.CleanData | utils/data_loader.py:96-110 | the cleaning loop yields one cleaned row per input row, each equal to `CleanRow` of it |
| DataLoader.LoadFile | utils/data_loader.py:31-67 | the loader's steps give `Load`: no file, an unsupported extension, missing standard columns and a failing coercion are errors, otherwise the cleaned table |
| DataLoader.LoadRejectsMissingColumns | utils/data_loader.py:50-58 | a supported file that lacks any standard name after mapping is refused, and that name is in the reported list |
| DataLoader.LoadKeepsRows | utils/data_loader.py:38-62 | a successful load had a supported name and all 17 standard columns, and returns one cleaned row per input row |
| DataLoader.ExtensionExamples | utils/data_loader.py:38-44 | `.csv`, `.xls` and `.xlsx` are accepted; `.CSV`, `.txt` and a bare `csv` are refused (the test is case-sensitive) |
| DataLoader.ValidateLoadedFiles | utils/data_loader.py:115-124 | two uploads validate iff both load and each has at least one row |
| DataLoader.SampleColumns | utils/data_loader.py:127-132 | the sample lists all 17 standard names in order, each with the first three of its own aliases |
| Analyzer.DistinctKeys | core/analyzer.py:29 | the group keys are exactly the input's non-missing keywords, each once |
| Analyzer.BestOf | core/analyzer.py:26-29 | the kept row is an input row whose position is the least; a missing position sorts last |
| Analyzer.Collapse | core/analyzer.py:26-29 | a keyword's surviving row is one of its rows and has the least position among them |
| Analyzer.UrlTexts | core/analyzer.py:34-36 | when every URL is text, the URL list is the group's URLs in input order |
| Analyzer.DeduplicateSpec | core/analyzer.py:20-37 | each keyword occurs once; the keywords are the input's (missing ones dropped); each row is an input row of least position; `All URLs` joins that keyword's URLs with ", "; an empty table stays empty |
| Analyzer.DeduplicateKeys | core/analyzer.py:20-37 | after deduplication each keyword occurs once, and the keywords are exactly the input's non-missing ones |
| Analyzer.DeduplicateKeepsDistinctRows | core/analyzer.py:29-37 | each output row is the collapse of its own keyword |
| Analyzer.MergeSpec | core/analyzer.py:41-64 | for deduplicated sides: one row per keyword of the union; each side is its own row with NaN filled; an absent side has position 999 and zero volume, difficulty, cost per click, traffic, traffic cost and trends |
| Analyzer.MergeKeys | core/analyzer.py:41-48 | the outer join of two deduplicated sides has one row per keyword, and its keywords are the union of both sides' |
| Analyzer.MergeSides | core/analyzer.py:41-64 | each merged row holds, per side, that side's row for the keyword with NaN filled, or the fill values when the side lacks it |
| Analyzer.Filter | core/analyzer.py:126-130 | a row is selected iff it is in the table and meets the category's condition, and each selected row occurs exactly as often as in the table |
| Analyzer.QuickWinExclusive | core/analyzer.py:122-162 | a quick win has the competitor ahead and is not a client win, defensive or a steal |
| Analyzer.StealIff | core/analyzer.py:133-162 | steal iff client > 10, competitor 1-5 and competitor volume > 100 (the 999 clause adds nothing); a steal is never a client win |
| Analyzer.DefensiveBoundary | core/analyzer.py:145-162 | client 2 and competitor 7 is not defensive but is a client win |
| Analyzer.FunnelOverlap | core/analyzer.py:176-180 | an intent "Commercial, Transactional" is in the middle and bottom funnels but not the top one |
| Analyzer.PriorityMonotone | core/analyzer.py:211-216 | the priority score grows with volume and traffic cost, strictly with volume, and falls with difficulty |
| Analyzer.InsertSorted | core/analyzer.py:218-220 | inserting into a table sorted by priority, highest first, keeps it sorted |
| Analyzer.InsertPermutes | core/analyzer.py:218-220 | inserting adds exactly the one row: the result's multiset is the input's plus the row |
| Analyzer.InsertSpec | core/analyzer.py:218-220 | inserting into a sorted table keeps it sorted and adds exactly the one row |
| Analyzer.SortByPriority | core/analyzer.py:219-220 | the result is sorted by priority, highest first, and is a permutation of the input |
| Analyzer.Opportunities | core/analyzer.py:189-208 | one formatted row per selected row |
| Analyzer.FormatOpportunities | core/analyzer.py:184-222 | as many rows as selected (none for none); sorted by descending priority; a permutation of the formatted rows; each row is the formatting of a selected row |
| Analyzer.Select | core/analyzer.py:123-222 | a category's table is sorted by priority and is a permutation of the formatted rows that meet the category, each as often as in the table |
| Analyzer.PositionsOf | core/analyzer.py:85-90 | one position per row |
| Analyzer.TrafficOf | core/analyzer.py:86 | one traffic value per row |
| Analyzer.TrafficCostOf | core/analyzer.py:87 | one traffic cost per row |
| Analyzer.CountPresent | core/analyzer.py:85 | the present values number at most the row count |
| Analyzer.CountsPartition | core/analyzer.py:88-90 | the count within a lower bound never exceeds the count within a higher one; at most the bound, above it and missing add up to the row count |
| Analyzer.SumBounds | core/analyzer.py:85-86 | a sum of present values in [lo, hi] lies between count × lo and count × hi |
| Analyzer.MeanBounds | core/analyzer.py:85 | the mean exists iff some value is present and then lies within the values' bounds |
| Analyzer.PresentIffCount | core/analyzer.py:85 | the count of present values is positive iff some value is present |
| Analyzer.CalculateMetrics | core/analyzer.py:78-91 | no metrics for an empty table; otherwise the total is the row count, top 3 ≤ top 10 ≤ total, and top 10 + 11 plus + unranked = total |
| Analyzer.MetricsAllRanked | core/analyzer.py:89-90 | when every row has a position, top 10 + 11 plus = total |
| Analyzer.MetricsAveragePosition | core/analyzer.py:85 | the average position lies within the positions' bounds, and is NaN iff no row has a position |
| Analyzer.MarketShare | core/analyzer.py:93-106 | zero total traffic gives (0, 0); otherwise the shares add up to 100, lie in [0, 100] for non-negative traffic, and the client share × total = client traffic × 100 |
| Analyzer.OverallOpportunityZero | core/analyzer.py:108-121 | with no row where the competitor is ahead, the overall opportunity is 0 |
| Analyzer.OverallOpportunityZeroIf | core/analyzer.py:114-119 | the same as a single implication over any merged table |
| Analyzer.OverallOpportunityCovers | core/analyzer.py:108-142 | for non-negative volumes, the competitor volume of quick wins and steals together is at most the overall opportunity |
| Analyzer.KeywordGapAnalyzer.constructor | core/analyzer.py:8-11 | a new analyzer holds no tables |
| Analyzer.KeywordGapAnalyzer.LoadData | core/analyzer.py:13-18 | both tables become their deduplication and the merged table their merge; the merged keywords are the union of both inputs' non-missing keywords |
| Analyzer.KeywordGapAnalyzer.MergeData | core/analyzer.py:41-64 | the loop over the join builds `Merge` of the two tables and leaves them unchanged; with deduplicated tables the analyzer is then loaded (`Valid`), the state every getter requires |
| Analyzer.KeywordGapAnalyzer.QuickWins | core/analyzer.py:123-132 | sorted by priority; exactly the formatted merged rows with client 6-10, competitor 1-5 and client volume > 100; a permutation of those rows formatted, each as often as in the merged table |
| Analyzer.KeywordGapAnalyzer.StealOpportunities | core/analyzer.py:134-144 | sorted; exactly the formatted rows with client > 10 or 999, competitor 1-5 and competitor volume > 100; a permutation of those rows formatted, each as often as in the merged table |
| Analyzer.KeywordGapAnalyzer.DefensiveKeywords | core/analyzer.py:146-155 | sorted; exactly the formatted rows with client 1-5, competitor 1-10 and competitor < client + 5; a permutation of those rows formatted, each as often as in the merged table |
| Analyzer.KeywordGapAnalyzer.ClientWins | core/analyzer.py:157-164 | sorted; exactly the formatted rows with client < competitor and client ≤ 10; a permutation of those rows formatted, each as often as in the merged table |
| Analyzer.KeywordGapAnalyzer.FunnelKeywords | core/analyzer.py:176-182 | fails iff the competitor table has rows and no merged row carries a competitor intent text (the column is then read as floats and the `.str` accessor raises; an empty competitor table keeps a text column); otherwise sorted, and a permutation of the formatted rows whose competitor intent text contains the intent (missing never matches) |
| Analyzer.KeywordGapAnalyzer.ContentGapAnalysis | core/analyzer.py:166-182 | fails exactly when the funnel lookups do; otherwise the three funnel tables for "Informational", "Commercial" and "Transactional", each sorted and a permutation of the formatted rows of that stage, each as often as in the merged table |
| Analyzer.KeywordGapAnalyzer.TrendingKeywords | core/analyzer.py:224-236 | sorted; exactly the formatted rows with competitor trend > 0 and competitor volume > 100; a permutation of those rows formatted, each as often as in the merged table |
| Analyzer.KeywordGapAnalyzer.ExecutiveSummary | core/analyzer.py:66-76 | a side's metrics are missing iff its table is empty; the market shares add up to 0 or 100; the opportunity score is 0 when the competitor is nowhere ahead |
| Analyzer.DeduplicateAsWrittenAgrees | core/analyzer.py:34-37 | where every URL is text, the URL join as written and the model agree |
| Analyzer.BlankUrlBreaksDeduplicate | core/analyzer.py:34-37 | a keyword ranked twice, once without a URL: the join as written fails; the model keeps the position-2 row with `All URLs` "a" |
| SimpleApp.FirstPresentAlias | app_simple.py:104-107 | nothing is found iff no alias is an exact header; otherwise the first alias in alias-list order that is a header |
| SimpleApp.FindAlias | app_simple.py:104-107 | the inner loop with `break` finds the first alias, in alias-list order, that is among the headers, or none |
| SimpleApp.StandardizeColumns | app_simple.py:103-107 | the nested loop with `break` builds the standardized column list of `StandardizedUpTo` |
| SimpleApp.AliasFor | app_simple.py:106 | a standard column exists iff the table has an entry of that name |
| SimpleApp.StandardizedUpToNames | app_simple.py:103-107 | after `n` standard names, a name has a column iff it is one of them and one of its aliases is a header |
| SimpleApp.SimpleNamesDistinct | app_simple.py:79-97 | the 17 standard names are distinct |
| SimpleApp.StandardizedIff | app_simple.py:103-107 | a standard name gets a column iff one of its aliases is, exactly, a header |
| SimpleApp.AliasOrderWins | app_simple.py:83-107 | alias order, not file order, decides: "Search Volume" wins over an earlier "Volume" header |
| SimpleApp.ExactAliasesOnly | app_simple.py:80-105 | matching is exact: the headers "KEYWORD" and " Keyword" provide no keyword column |
| SimpleApp.Names | app_simple.py:111 | the standardized column names, in order |
| SimpleApp.LoadAndValidateCsv | app_simple.py:71-143 | the mapping loop, the essential check and the row loop give `LoadSimple` |
| SimpleApp.LoadSimpleRefuses | app_simple.py:71-116 | the load fails iff the table is empty or one of Keyword, Position, Search Volume or Keyword Difficulty has no alias among the headers |
| SimpleApp.EssentialsInTheMapping | app_simple.py:79-110 | the four essential names are standard names 0, 1, 3 and 4 |
| SimpleApp.SimpleCleanFills | app_simple.py:119-137 | the previous position falls back to the position whether the column is absent or a cell is missing; difficulty defaults to 50; cost per click is present iff its column is, and defaults to 0 |
| SimpleApp.SimpleDerived | app_simple.py:140-141 | position change + position = previous position (0 when they are equal); opportunity score × (difficulty + 1) = volume × 0.1, defined when the volume is and the divisor is not 0 |
| SimpleApp.PassingRows | app_simple.py:154-163 | the rows with volume ≥ the minimum and difficulty ≤ the maximum (both inclusive), each passing row exactly as often as in the table and no other row |
| SimpleApp.SelectForMerge | app_simple.py:154-167 | exactly the passing rows are selected, cut down to the merged columns, and no more rows than the table has |
| SimpleApp.SelectionOfPassingRows | app_simple.py:154-167 | the selection is, row by row, the passing rows cut down to the merged columns, so a repeated passing row is selected as often as it occurs |
| SimpleApp.EssentialHeadersLoad | app_simple.py:71-116 | a non-empty table whose headers include Keyword, Position, Search Volume and Keyword Difficulty verbatim loads |
| SimpleApp.MissingCpcBreaksAnalysis | app_simple.py:110-167 | a file with the four essential headers and no cost-per-click alias loads, yet the selection as written fails |
| SimpleApp.SelectAsWrittenAgrees | app_simple.py:166-167 | with a CPC column, the selection as written and the model agree |
| SimpleApp.AnalyzeKeywordGaps | app_simple.py:150-217 | the row loop yields `AnalysisOf` of the merged table; it fails (ZeroDivisionError) iff some merged row is a quick win with client difficulty −1; otherwise content gaps stay empty and the three lists together hold at most one entry per merged row |
| SimpleApp.AnalysisOfSpec | app_simple.py:174-215 | the analysis fails iff some merged row's quick-win score divides by zero; otherwise content gaps stay empty, each row lands in at most one list, and an entry is in a list iff some merged row is routed there with that entry |
| SimpleApp.RoutesInOrder | app_simple.py:186-208 | a quick win or steal has the competitor ahead; a client win is neither of the earlier cases |
| SimpleApp.ElevenIsUnlisted | app_simple.py:186-208 | client 11 with competitor 1-3 is in no list |
| SimpleApp.ListingFacts | app_simple.py:182-215 | each list's condition holds for its entries; the quick-win score × (difficulty + 1) = volume, with the divisor never zero on a listed row; a steal's client is "Not ranking" iff the position is 999; client-win advantage is ≥ 0, and ≥ 1 for a gap of at least 1; unlisted iff no rule applies |
| SimpleApp.MinusOneDifficultyRaises | app_simple.py:186-194 | a quick-win row whose client difficulty is −1 makes the whole analysis fail, as the plain-Python division `volume / (difficulty + 1)` raises |
| SimpleApp.TruncMonotone | app_simple.py:214 | `int()` keeps non-negative values non-negative and values ≥ 1 at least 1 |
| Charts.CategorizePositionSpec | visualization/charts.py:118-126 | each bucket holds exactly its range (a missing position is 21+); a larger position never gets a better bucket |
| Charts.RangedIdempotent | visualization/charts.py:128-129 | adding the range column keeps the row and is idempotent |
| Charts.AssignRanges | visualization/charts.py:128 | every row of the table gets the range of its position, in place |
| Charts.TrafficDistribution | visualization/charts.py:113-132 | both tables get their range column in place, even when they are the same table; each traffic map is the per-range sum |
| Charts.RangeTrafficAddsUp | visualization/charts.py:131-132 | the four per-range sums add up to the table's total traffic |
| Charts.AbsentRangeHasNoTraffic | visualization/charts.py:131-132 | a range that no row falls in has no traffic, so the grouped sums lose nothing |
| Charts.OpportunityMatrix | visualization/charts.py:70-89 | the loop yields exactly the matrix points, one per keyword |
| Charts.MatrixPointSpec | visualization/charts.py:76-89 | a point's keyword is on both sides and the competitor is strictly ahead; the divisor exceeds 1; score × divisor = volume, and the score is below a positive volume |
| Charts.MatrixNeedsBothSides | visualization/charts.py:77 | a keyword the client does not rank for gets no point |
| Charts.CategorizeOpportunitySpec | visualization/charts.py:241-250 | New Opportunity iff no client position; Quick Win iff competitor ahead and client ≤ 10; Long-term iff competitor ahead and client > 10; Defensive otherwise |
| Charts.MatrixPointComplete | visualization/charts.py:76-89 | conversely, a keyword both sides have, whose first competitor position is below its first client position, has its point in the matrix |
| Charts.CompetitiveAnalysisSpec | visualization/charts.py:224-252 | position and traffic differences are client minus competitor, each NaN iff a side's value is missing; a positive difference is a quick win or long-term; a keyword only the competitor has is a New Opportunity; every client row has a table row with its keyword, position and traffic |
| Frames.OuterJoinSound | core/analyzer.py:43-49 | every joined row has at least one side, each side being an input row with the joined key; every row of either input appears in the join |
| Frames.OuterJoinUnique | core/analyzer.py:43-49 | with unique keys on both sides, the join has one row per keyword of the union, each side being that side's row |
| Frames.Lookup | visualization/charts.py:78-80 | a row of a keyword is found iff the keyword occurs, and it is a row of the table with that keyword |
| Frames.LookupFirst | visualization/charts.py:78-80 | the row found is the first row in table order with that keyword, as `.iloc[0]` reads |
| Cells.StripIgnoresPadding | utils/data_loader.py:77 | `strip()` removes any surrounding whitespace, that is any run of the characters `str.isspace()` accepts |

## Left out

- Reading files is not modelled: `read_csv`, `read_excel`, and the semicolon-then-comma fallback
  of `app_simple.py`. An upload is its name plus the table it parses to, and the table's cells
  are already typed. A text cell that spells a number is taken to arrive as a number.
- The Streamlit messages are not modelled, nor chart rendering (plotly figures), `app.py`,
  `utils/ai_analyzer.py` or the installers. They are UI, rendering, network or process calls.
- Output order is not modelled beyond what is stated.
  - groupby emits keywords sorted. The model lists them in order of first occurrence.
  - The outer merges (`core/analyzer.py:43-49`, and the one in `app_simple.py` whose rows the
    analysis loop visits) sort the join keys. `Frames.OuterJoin` lists the left rows first,
    then the rows only the right side has.
  - The order of rows of equal priority is not stated, because pandas' sort is not stable.
  - Which of several equally placed rows survives deduplication is not stated either.
- `round(..., 2)` and display formatting are not modelled. Scores are exact reals.
- Positions are reals rather than integers, because pandas reads them as floats. Truncation by
  `int()` is written out.
- `Analyzer.Collapse`: `groupby().first()` takes the first non-missing value of each column
  separately. The model keeps the whole best row, so a NaN in that row is not filled from a
  worse row.
- A `None` table passed to `load_data`, and the `except` paths, are not modelled. Only the
  conversion failure that `Load` names is. Non-text headers are not modelled either, since
  headers are strings.
- `SimpleApp.SimpleCoerced` carries the columns the analysis reads: keyword, positions, volume,
  difficulty and cost per click. The loader's other optional columns are not carried.
- Rows with a missing keyword are dropped by groupby, and the model does the same. Such rows in
  the opportunity matrix are skipped. In the source they would raise or be skipped, depending on
  NaN identity.
- `Analyzer.KeywordGapAnalyzer.TrendingKeywords`: the source first rewrites the merged table's
  competitor trends with a numeric coercion and a fill. After the merge those values are already
  numeric and filled, so the rewrite changes nothing. The model reads the table without writing it.
- `SimpleApp.ListingFacts`: the client-win advantage is only proved ≥ 1 when the positions
  differ by at least 1. Fractional positions can truncate it to 0.
- `DataLoader.FirstMatchFrom`: lower-casing is modelled for ASCII letters only. Python's
  `lower()` also folds non-ASCII capitals (and the Kelvin sign to `k`), so a header spelled with
  such letters can match in the source and not in the model. The aliases themselves are ASCII.
- `DataLoader.MatchIgnoresCaseAndPadding`: case-insensitivity is proved for ASCII upper-casing
  only, for the same reason. Padding covers every character `strip()` removes.
- `DataLoader.DerivedProducts` and `SimpleApp.SimpleDerived`: a keyword difficulty of −1 makes the
  divisor zero. pandas then gives inf or NaN, and the model gives a missing score (`None`). These
  are column-wise divisions; the row loop of `analyze_keyword_gaps` divides plain Python numbers
  instead, and the model has it fail there (`SimpleApp.ScoreRaises`).
- A header mapping that leaves two columns with the same non-numeric standard name is not
  modelled as a failure. An example is a file with both "keyword" and "Keyword" headers, of which
  only the first is renamed. `load_file` accepts such a table. The analyzer's
  `groupby('Keyword')` then raises, and so does its selection of a duplicated "URL" column. The
  model's load accepts the table too, but its rows read the first column of each name, so the
  analysis succeeds.
- `Analyzer.KeywordGapAnalyzer.FunnelKeywords`: whether the intent column is text is decided on
  the merged rows. pandas decides it on the whole file as read, including rows that deduplication
  later drops.
- `Analyzer.KeywordGapAnalyzer.ExecutiveSummary`: the total traffic and traffic cost metrics are
  computed with NaN skipped. Only the counts and the average position carry proved bounds.

## Findings

| source | as written | input that shows it | evidently intended | confidence | as-written member | corrected member |
|---|---|---|---|---|---|---|
| app_simple.py:166-167 | the merge selects a `CPC` column from both sides, but the loader only requires four essential columns and creates `CPC` only when an alias is present | a file with Keyword, Position, Search Volume and Keyword Difficulty headers and no cost-per-click alias: it loads, then the selection raises a missing-key error | cost per click is optional, as the loader treats it, and reads 0 when absent | not executed | SimpleApp.MissingCpcBreaksAnalysis | SimpleApp.SelectForMerge |
| core/analyzer.py:34-37 | the URLs of a keyword are joined with `', '.join`, which raises when one of them is NaN | two rows for "seo" at positions 4 (URL "a") and 2 (no URL) | join the URLs that are present | not executed | Analyzer.BlankUrlBreaksDeduplicate | Analyzer.DeduplicateSpec |
