/**
 * The comparative analysis engine: each side is collapsed to one row per keyword (best position,
 * all URLs), the two sides are outer-joined on the keyword with sentinel fills, and the joined
 * table is filtered into opportunity categories, formatted with a priority score, and summarised.
 */
module Analyzer {
  import opened Wrappers
  import opened Cells
  import opened Frames
  import opened DataLoader

  /** The position given to a keyword a side does not rank for. */
  const NOT_RANKING: real := 999.0

  /** A keyword row after deduplication, with every URL of its keyword joined by ", ". */
  datatype RankedRow = RankedRow(row: KeywordRow, allUrls: string)

  function KeywordOf(r: KeywordRow): Cell { r.keyword }

  function RankedKey(r: RankedRow): Cell { r.row.keyword }

  // ---------------------------------------------------------------------------
  // Deduplication
  // ---------------------------------------------------------------------------

  /** The non-missing keywords of `rows`, each once, in order of first occurrence. */
  function DistinctKeys(rows: seq<KeywordRow>): (r: seq<Cell>)
    ensures forall k :: k in r <==> k in KeySet(rows, KeywordOf) && k != Blank
    ensures forall i, j :: 0 <= i < j < |r| ==> r[i] != r[j]
  {
    if rows == [] then []
    else
      var init := rows[..|rows| - 1];
      var d := DistinctKeys(init);
      var k := rows[|rows| - 1].keyword;
      KeySetSnoc(rows, KeywordOf);
      if k == Blank || k in d then d else d + [k]
  }

  lemma KeySetSnoc<T>(rows: seq<T>, key: T -> Cell)
    requires rows != []
    ensures KeySet(rows, key) == KeySet(rows[..|rows| - 1], key) + {key(rows[|rows| - 1])}
  {
    var init := rows[..|rows| - 1];
    forall c | c in KeySet(rows, key) ensures c in KeySet(init, key) + {key(rows[|rows| - 1])} {
      var x :| x in rows && key(x) == c;
      var i :| 0 <= i < |rows| && rows[i] == x;
      if i < |rows| - 1 {
        assert init[i] == x;
      }
    }
    forall c | c in KeySet(init, key) ensures c in KeySet(rows, key) {
      var x :| x in init && key(x) == c;
      var i :| 0 <= i < |init| && init[i] == x;
      assert rows[i] == x;
    }
    assert rows[|rows| - 1] in rows;
  }

  /** `a` sorts no later than `b` in an ascending sort on position, where NaN goes last. */
  predicate PosLe(a: Option<real>, b: Option<real>) {
    b.None? || (a.Some? && a.value <= b.value)
  }

  /** A row of least position; the first such row (the tie-break of the sort is not promised). */
  function BestOf(rows: seq<KeywordRow>): (r: KeywordRow)
    requires rows != []
    ensures r in rows
    ensures forall x :: x in rows ==> PosLe(r.position, x.position)
  {
    if |rows| == 1 then rows[0]
    else
      var b := BestOf(rows[1..]);
      assert forall x :: x in rows ==> x == rows[0] || x in rows[1..];
      if PosLe(rows[0].position, b.position) then rows[0] else b
  }

  /** The texts of the URL cells of `rows`, in order; missing or numeric URL cells are skipped. */
  function UrlTexts(rows: seq<KeywordRow>): (r: seq<string>)
    ensures |r| <= |rows|
    ensures (forall x :: x in rows ==> x.url.Text?) ==>
      |r| == |rows| && forall i :: 0 <= i < |rows| ==> r[i] == rows[i].url.text
  {
    if rows == [] then []
    else
      assert forall x :: x in rows[1..] ==> x in rows;
      (if rows[0].url.Text? then [rows[0].url.text] else []) + UrlTexts(rows[1..])
  }

  /** The `All URLs` cell: the keyword's URLs in input order, joined by ", ". */
  function AllUrls(group: seq<KeywordRow>): string {
    Join(", ", UrlTexts(group))
  }

  lemma MatchingNonEmpty<T>(rows: seq<T>, key: T -> Cell, k: Cell)
    requires k in KeySet(rows, key)
    ensures Matching(rows, key, k) != []
  {
    var x :| x in rows && key(x) == k;
    assert x in Matching(rows, key, k);
  }

  /** The surviving row of keyword `k`. */
  function Collapse(rows: seq<KeywordRow>, k: Cell): (r: RankedRow)
    requires k in KeySet(rows, KeywordOf)
    ensures r.row.keyword == k && r.row in rows
    ensures forall x :: x in rows && x.keyword == k ==> PosLe(r.row.position, x.position)
  {
    var g := Matching(rows, KeywordOf, k);
    MatchingNonEmpty(rows, KeywordOf, k);
    RankedRow(BestOf(g), AllUrls(g))
  }

  /**
   * `_deduplicate_keywords`: one row per keyword, the one with the best position, with the
   * keyword's URLs collected. Rows without a keyword are dropped, as `groupby` drops NaN keys.
   * The URL join skips missing URLs (see `DeduplicateAsWritten` for the source's own join).
   */
  function Deduplicate(rows: seq<KeywordRow>): seq<RankedRow> {
    var keys := DistinctKeys(rows);
    seq(|keys|, i requires 0 <= i < |keys| => Collapse(rows, keys[i]))
  }

  /**
   * After deduplication each keyword occurs once, the keywords are exactly the input's
   * (missing ones aside), each surviving row is an input row of least position for its keyword,
   * its `All URLs` joins that keyword's URLs in input order, and empty input stays empty.
   */
  lemma DeduplicateSpec(rows: seq<KeywordRow>)
    ensures UniqueKeys(Deduplicate(rows), RankedKey)
    ensures KeySet(Deduplicate(rows), RankedKey) == KeySet(rows, KeywordOf) - {Blank}
    ensures forall d :: d in Deduplicate(rows) ==>
      d.row in rows &&
      (forall x :: x in rows && x.keyword == d.row.keyword ==> PosLe(d.row.position, x.position)) &&
      d.allUrls == AllUrls(Matching(rows, KeywordOf, d.row.keyword))
    ensures rows == [] ==> Deduplicate(rows) == []
  {
    DeduplicateKeys(rows);
    forall d | d in Deduplicate(rows)
      ensures d.row in rows &&
        (forall x :: x in rows && x.keyword == d.row.keyword ==> PosLe(d.row.position, x.position)) &&
        d.allUrls == AllUrls(Matching(rows, KeywordOf, d.row.keyword))
    {
      DeduplicateKeepsDistinctRows(rows, d);
    }
  }

  /** The keywords of the deduplicated table: each once, and exactly the input's non-missing ones. */
  lemma DeduplicateKeys(rows: seq<KeywordRow>)
    ensures UniqueKeys(Deduplicate(rows), RankedKey)
    ensures KeySet(Deduplicate(rows), RankedKey) == KeySet(rows, KeywordOf) - {Blank}
  {
    var keys := DistinctKeys(rows);
    DeduplicateKeyAt(rows);
    KeysOfDistinct(Deduplicate(rows), RankedKey, keys);
  }

  lemma DeduplicateKeyAt(rows: seq<KeywordRow>)
    ensures |Deduplicate(rows)| == |DistinctKeys(rows)|
    ensures forall i :: 0 <= i < |Deduplicate(rows)| ==> RankedKey(Deduplicate(rows)[i]) == DistinctKeys(rows)[i]
  {
  }

  /** Rows whose keys are, position by position, a list of distinct keys have unique keys, and those keys. */
  lemma KeysOfDistinct<T>(dd: seq<T>, key: T -> Cell, keys: seq<Cell>)
    requires |dd| == |keys| && forall i :: 0 <= i < |dd| ==> key(dd[i]) == keys[i]
    requires forall i, j :: 0 <= i < j < |keys| ==> keys[i] != keys[j]
    ensures UniqueKeys(dd, key)
    ensures forall k :: k in KeySet(dd, key) <==> k in keys
  {
    forall k | k in keys ensures k in KeySet(dd, key) {
      var i :| 0 <= i < |keys| && keys[i] == k;
      assert dd[i] in dd;
    }
    forall k | k in KeySet(dd, key) ensures k in keys {
      var d :| d in dd && key(d) == k;
      var i :| 0 <= i < |dd| && dd[i] == d;
      assert keys[i] in keys;
    }
  }

  /** Deduplication keeps nothing to collapse a second time. */
  lemma DeduplicateKeepsDistinctRows(rows: seq<KeywordRow>, d: RankedRow)
    requires d in Deduplicate(rows)
    ensures d == Collapse(rows, d.row.keyword)
  {
  }

  // ---------------------------------------------------------------------------
  // Merging
  // ---------------------------------------------------------------------------

  /** One side of a merged row, after the fills of `_merge_data`. */
  datatype Side = Side(
    position: real,
    searchVolume: real,
    difficulty: real,
    cpc: real,
    traffic: real,
    trafficCost: real,
    trends: real,
    url: Cell,
    intents: Cell,
    serpFeatures: Cell)

  /** A row of the merged table: the keyword and its `_client` and `_competitor` columns. */
  datatype MergedRow = MergedRow(keyword: Cell, client: Side, competitor: Side)

  function MergedKey(m: MergedRow): Cell { m.keyword }

  /**
   * The fills of `_merge_data`: position NaN becomes 999; search volume, difficulty, cost per
   * click, traffic, traffic cost and trends are coerced to numbers with NaN becoming 0.
   */
  function FillSide(s: Option<RankedRow>): Side {
    match s
    case None => Side(NOT_RANKING, 0.0, 0.0, 0.0, 0.0, 0.0, 0.0, Blank, Blank, Blank)
    case Some(r) =>
      Side(r.row.position.GetOr(NOT_RANKING), r.row.searchVolume.GetOr(0.0), r.row.difficulty, r.row.cpc,
           r.row.traffic.GetOr(0.0), r.row.trafficCost.GetOr(0.0), ToNumeric(r.row.trends).GetOr(0.0),
           r.row.url, r.row.intents, r.row.serpFeatures)
  }

  function Fill(p: Joined<RankedRow>): MergedRow {
    MergedRow(p.key, FillSide(p.left), FillSide(p.right))
  }

  /** `_merge_data`: the outer join on keyword with the fills applied. */
  function Merge(client: seq<RankedRow>, competitor: seq<RankedRow>): seq<MergedRow> {
    var j := OuterJoin(client, competitor, RankedKey);
    seq(|j|, i requires 0 <= i < |j| => Fill(j[i]))
  }

  /**
   * Merging deduplicated sides gives exactly one row per keyword of either side; a side that
   * does not have the keyword reads position 999 and zero volume, difficulty, cost per click,
   * traffic, traffic cost and trends, and a side that has it reads its own row with NaN filled.
   */
  lemma MergeSpec(client: seq<RankedRow>, competitor: seq<RankedRow>)
    requires UniqueKeys(client, RankedKey) && UniqueKeys(competitor, RankedKey)
    ensures UniqueKeys(Merge(client, competitor), MergedKey)
    ensures KeySet(Merge(client, competitor), MergedKey) == KeySet(client, RankedKey) + KeySet(competitor, RankedKey)
    ensures forall m :: m in Merge(client, competitor) ==>
      m.client == FillSide(Lookup(client, RankedKey, m.keyword)) &&
      m.competitor == FillSide(Lookup(competitor, RankedKey, m.keyword))
    ensures forall m :: m in Merge(client, competitor) && m.keyword !in KeySet(client, RankedKey) ==>
      AbsentSide(m.client)
    ensures forall m :: m in Merge(client, competitor) && m.keyword !in KeySet(competitor, RankedKey) ==>
      AbsentSide(m.competitor)
  {
    MergeKeys(client, competitor);
    MergeSides(client, competitor);
  }

  lemma MergeKeys(client: seq<RankedRow>, competitor: seq<RankedRow>)
    requires UniqueKeys(client, RankedKey) && UniqueKeys(competitor, RankedKey)
    ensures UniqueKeys(Merge(client, competitor), MergedKey)
    ensures KeySet(Merge(client, competitor), MergedKey) == KeySet(client, RankedKey) + KeySet(competitor, RankedKey)
  {
    OuterJoinUnique(client, competitor, RankedKey);
    JoinedRowKeys(OuterJoin(client, competitor, RankedKey), Merge(client, competitor), MergedKey);
  }

  lemma MergeSides(client: seq<RankedRow>, competitor: seq<RankedRow>)
    requires UniqueKeys(client, RankedKey) && UniqueKeys(competitor, RankedKey)
    ensures forall m :: m in Merge(client, competitor) ==>
      m.client == FillSide(Lookup(client, RankedKey, m.keyword)) &&
      m.competitor == FillSide(Lookup(competitor, RankedKey, m.keyword))
  {
    var j := OuterJoin(client, competitor, RankedKey);
    var mm := Merge(client, competitor);
    OuterJoinUnique(client, competitor, RankedKey);
    forall m | m in mm
      ensures m.client == FillSide(Lookup(client, RankedKey, m.keyword)) &&
        m.competitor == FillSide(Lookup(competitor, RankedKey, m.keyword))
    {
      var i :| 0 <= i < |mm| && mm[i] == m;
      assert m == Fill(j[i]) && j[i] in j;
    }
  }

  /** Rows carrying, position by position, the keys of a join with distinct keys have those keys, once each. */
  lemma JoinedRowKeys<T, U>(j: seq<Joined<T>>, rows: seq<U>, key: U -> Cell)
    requires DistinctJoinedKeys(j)
    requires |rows| == |j| && forall i :: 0 <= i < |rows| ==> key(rows[i]) == j[i].key
    ensures UniqueKeys(rows, key) && KeySet(rows, key) == JoinedKeys(j)
  {
    forall k | k in JoinedKeys(j) ensures k in KeySet(rows, key) {
      var p :| p in j && p.key == k;
      var i :| 0 <= i < |j| && j[i] == p;
      assert rows[i] in rows;
    }
    forall k | k in KeySet(rows, key) ensures k in JoinedKeys(j) {
      var r :| r in rows && key(r) == k;
      var i :| 0 <= i < |rows| && rows[i] == r;
      assert j[i] in j;
    }
  }

  /** The values `_merge_data` leaves on the side of a keyword that side does not rank for. */
  predicate AbsentSide(s: Side) {
    s.position == NOT_RANKING && s.searchVolume == 0.0 && s.difficulty == 0.0 && s.cpc == 0.0 &&
    s.traffic == 0.0 && s.trafficCost == 0.0 && s.trends == 0.0
  }

  // ---------------------------------------------------------------------------
  // Categories
  // ---------------------------------------------------------------------------

  predicate Between(x: real, lo: real, hi: real) {
    lo <= x <= hi
  }

  /** Client ranks 6-10, competitor 1-5, client volume over 100. */
  predicate IsQuickWin(m: MergedRow) {
    Between(m.client.position, 6.0, 10.0) && Between(m.competitor.position, 1.0, 5.0) &&
    m.client.searchVolume > 100.0
  }

  /** Client beyond 10 or not ranking, competitor 1-5, competitor volume over 100. */
  predicate IsSteal(m: MergedRow) {
    (m.client.position > 10.0 || m.client.position == NOT_RANKING) &&
    Between(m.competitor.position, 1.0, 5.0) && m.competitor.searchVolume > 100.0
  }

  /** Client 1-5 and the competitor within 1-10 and less than five places behind. */
  predicate IsDefensive(m: MergedRow) {
    Between(m.client.position, 1.0, 5.0) && Between(m.competitor.position, 1.0, 10.0) &&
    m.competitor.position < m.client.position + 5.0
  }

  /** Client ahead of the competitor and in the top 10. */
  predicate IsClientWin(m: MergedRow) {
    m.client.position < m.competitor.position && m.client.position <= 10.0
  }

  /** The competitor's intent cell contains `intent` (case-sensitive; missing cells never match). */
  predicate IsFunnel(m: MergedRow, intent: string) {
    m.competitor.intents.Text? && Contains(m.competitor.intents.text, intent)
  }

  /**
   * Whether pandas keeps the merged competitor intent column as text, so that `.str` applies: an
   * empty competitor table keeps the reader's text column (the merge then fills it with NaN);
   * otherwise some merged row must carry a competitor intent text.
   */
  predicate IntentColumnIsText(rows: seq<MergedRow>, competitor: seq<RankedRow>) {
    competitor == [] || exists m :: m in rows && m.competitor.intents.Text?
  }

  /** A positive competitor trend and competitor volume over 100. */
  predicate IsTrending(m: MergedRow) {
    m.competitor.trends > 0.0 && m.competitor.searchVolume > 100.0
  }

  datatype Category = QuickWin | Steal | Defensive | ClientWin | Funnel(intent: string) | Trending

  predicate InCategory(m: MergedRow, c: Category) {
    match c
    case QuickWin => IsQuickWin(m)
    case Steal => IsSteal(m)
    case Defensive => IsDefensive(m)
    case ClientWin => IsClientWin(m)
    case Funnel(intent) => IsFunnel(m, intent)
    case Trending => IsTrending(m)
  }

  /** The rows of a category, in table order. */
  function Filter(rows: seq<MergedRow>, c: Category): (r: seq<MergedRow>)
    ensures forall m :: m in r <==> m in rows && InCategory(m, c)
    ensures forall m :: multiset(r)[m] == if InCategory(m, c) then multiset(rows)[m] else 0
    ensures |r| <= |rows|
  {
    if rows == [] then []
    else
      assert rows == [rows[0]] + rows[1..];
      assert forall m :: m in rows <==> m == rows[0] || m in rows[1..];
      (if InCategory(rows[0], c) then [rows[0]] else []) + Filter(rows[1..], c)
  }

  /** A quick win has the competitor ahead, and is neither a client win nor defensive. */
  lemma QuickWinExclusive(m: MergedRow)
    requires IsQuickWin(m)
    ensures m.competitor.position < m.client.position
    ensures !IsClientWin(m) && !IsDefensive(m) && !IsSteal(m)
  {
  }

  /** The not-ranking clause of the steal rule is subsumed: it is client beyond 10. */
  lemma StealIff(m: MergedRow)
    ensures IsSteal(m) <==>
      m.client.position > 10.0 && 1.0 <= m.competitor.position <= 5.0 && m.competitor.searchVolume > 100.0
    ensures IsSteal(m) ==> !IsClientWin(m) && m.competitor.position < m.client.position
  {
  }

  /** Client 2 against competitor 7 is not defensive: the competitor must be under five places behind. */
  lemma DefensiveBoundary(m: MergedRow)
    requires m.client.position == 2.0 && m.competitor.position == 7.0
    ensures !IsDefensive(m)
    ensures IsClientWin(m)
  {
  }

  /** An intent cell listing several intents falls into every funnel stage it names. */
  lemma FunnelOverlap(m: MergedRow)
    requires m.competitor.intents == Text("Commercial, Transactional")
    ensures IsFunnel(m, "Commercial") && IsFunnel(m, "Transactional") && !IsFunnel(m, "Informational")
  {
    var t := "Commercial, Transactional";
    assert "Commercial" <= t;
    assert t[12..] == "Transactional";
    assert "Transactional" <= t[12..];
    ContainsSuffix(t, 12, "Transactional");
    NotContainsInformational(t);
  }

  lemma {:induction false} ContainsSuffix(t: string, i: nat, p: string)
    requires i <= |t| && p <= t[i..]
    ensures Contains(t, p)
  {
    if i > 0 {
      assert t[1..][i - 1..] == t[i..];
      ContainsSuffix(t[1..], i - 1, p);
    }
  }

  lemma NotContainsInformational(t: string)
    requires t == "Commercial, Transactional"
    ensures !Contains(t, "Informational")
  {
    NoCapitalIAfter(t, 0);
  }

  /** No suffix of `t` from `i` on starts with a capital I, so "Informational" is not in it. */
  lemma {:induction false} NoCapitalIAfter(t: string, i: nat)
    requires i <= |t| && forall k :: 0 <= k < |t| ==> t[k] != 'I'
    ensures !Contains(t[i..], "Informational")
    decreases |t| - i
  {
    if i < |t| {
      assert t[i..][1..] == t[i + 1..];
      NoCapitalIAfter(t, i + 1);
      assert t[i..][0] != 'I';
    }
  }

  // ---------------------------------------------------------------------------
  // Formatting
  // ---------------------------------------------------------------------------

  /** A row of a formatted opportunity table (competitor columns, renamed). */
  datatype Opportunity = Opportunity(
    keyword: Cell,
    searchVolume: real,
    difficulty: real,
    cpc: real,
    clientPosition: real,
    competitorPosition: real,
    competitorTraffic: real,
    trafficCost: real,
    intent: Cell,
    serpFeatures: Cell,
    clientUrl: Cell,
    competitorUrl: Cell,
    priority: real)

  /** The priority score: 0.4 of the volume, 0.3 of the traffic cost, 0.3 of the ease (100 - difficulty). */
  function Priority(searchVolume: real, trafficCost: real, difficulty: real): real {
    searchVolume * 0.4 + trafficCost * 0.3 + (100.0 - difficulty) * 0.3
  }

  /** Priority grows with volume and traffic cost and falls with difficulty. */
  lemma PriorityMonotone(sv: real, tc: real, d: real, sv': real, tc': real, d': real)
    requires sv <= sv' && tc <= tc' && d' <= d
    ensures Priority(sv, tc, d) <= Priority(sv', tc', d')
    ensures sv < sv' ==> Priority(sv, tc, d) < Priority(sv', tc', d')
  {
  }

  function ToOpportunity(m: MergedRow): Opportunity {
    var k := m.competitor;
    Opportunity(m.keyword, k.searchVolume, k.difficulty, k.cpc, m.client.position, k.position,
                k.traffic, k.trafficCost, k.intents, k.serpFeatures, m.client.url, k.url,
                Priority(k.searchVolume, k.trafficCost, k.difficulty))
  }

  function Opportunities(rows: seq<MergedRow>): (r: seq<Opportunity>)
    ensures |r| == |rows|
  {
    seq(|rows|, i requires 0 <= i < |rows| => ToOpportunity(rows[i]))
  }

  predicate SortedByPriority(s: seq<Opportunity>) {
    forall i, j :: 0 <= i < j < |s| ==> s[i].priority >= s[j].priority
  }

  /** A row ahead of every row of a sorted table keeps it sorted when put in front. */
  lemma SortedCons(x: Opportunity, t: seq<Opportunity>)
    requires SortedByPriority(t)
    requires forall y :: y in t ==> x.priority >= y.priority
    ensures SortedByPriority([x] + t)
  {
    var s := [x] + t;
    forall i, j | 0 <= i < j < |s| ensures s[i].priority >= s[j].priority {
      if i == 0 {
        assert s[j] == t[j - 1] && t[j - 1] in t;
      } else {
        assert s[i] == t[i - 1] && s[j] == t[j - 1];
      }
    }
  }

  /** Puts `o` before the first row of lower priority. */
  function Insert(o: Opportunity, s: seq<Opportunity>): seq<Opportunity> {
    if s == [] then [o]
    else if o.priority >= s[0].priority then [o] + s
    else [s[0]] + Insert(o, s[1..])
  }

  lemma InsertSpec(o: Opportunity, s: seq<Opportunity>)
    requires SortedByPriority(s)
    ensures SortedByPriority(Insert(o, s))
    ensures multiset(Insert(o, s)) == multiset(s) + multiset{o}
  {
    InsertSorted(o, s);
    InsertPermutes(o, s);
  }

  lemma {:induction false} InsertPermutes(o: Opportunity, s: seq<Opportunity>)
    ensures multiset(Insert(o, s)) == multiset(s) + multiset{o}
  {
    if s != [] && o.priority < s[0].priority {
      InsertPermutes(o, s[1..]);
      assert s == [s[0]] + s[1..];
    }
  }

  /** The tail of a sorted table is sorted and its rows rank no higher than the head. */
  lemma SortedTail(s: seq<Opportunity>)
    requires SortedByPriority(s) && s != []
    ensures SortedByPriority(s[1..])
    ensures forall y :: y in s[1..] ==> s[0].priority >= y.priority
  {
    var t := s[1..];
    forall i, j | 0 <= i < j < |t| ensures t[i].priority >= t[j].priority {
      assert t[i] == s[i + 1] && t[j] == s[j + 1];
    }
    forall y | y in t ensures s[0].priority >= y.priority {
      var j :| 0 <= j < |t| && t[j] == y;
      assert s[j + 1] == y;
    }
  }

  lemma {:induction false} InsertSorted(o: Opportunity, s: seq<Opportunity>)
    requires SortedByPriority(s)
    ensures SortedByPriority(Insert(o, s))
  {
    if s == [] {
    } else if o.priority >= s[0].priority {
      SortedCons(o, s);
    } else {
      var t := s[1..];
      SortedTail(s);
      InsertSorted(o, t);
      InsertPermutes(o, t);
      var rest := Insert(o, t);
      forall y | y in rest ensures s[0].priority >= y.priority {
        assert y in multiset(rest);
        if y != o {
          assert y in multiset(t);
        }
      }
      SortedCons(s[0], rest);
    }
  }

  /** `sort_values('Priority Score', ascending=False)`; the order among equal scores is not promised. */
  function SortByPriority(s: seq<Opportunity>): (r: seq<Opportunity>)
    ensures SortedByPriority(r)
    ensures multiset(r) == multiset(s)
  {
    if s == [] then []
    else
      assert s == [s[0]] + s[1..];
      InsertSpec(s[0], SortByPriority(s[1..]));
      Insert(s[0], SortByPriority(s[1..]))
  }

  /**
   * `_format_opportunity_df`: the competitor columns of each row, renamed, with the priority
   * score, in non-increasing order of priority; empty input gives an empty table.
   */
  function FormatOpportunities(rows: seq<MergedRow>): (r: seq<Opportunity>)
    ensures |r| == |rows|
    ensures SortedByPriority(r)
    ensures multiset(r) == multiset(Opportunities(rows))
    ensures forall o :: o in r <==> exists m :: m in rows && o == ToOpportunity(m)
  {
    var r := SortByPriority(Opportunities(rows));
    assert |r| == |multiset(r)| == |multiset(Opportunities(rows))| == |rows|;
    forall o ensures o in r <==> o in Opportunities(rows) {
      assert o in r <==> o in multiset(r);
      assert o in Opportunities(rows) <==> o in multiset(Opportunities(rows));
    }
    assert forall o :: o in Opportunities(rows) <==> exists m :: m in rows && o == ToOpportunity(m) by {
      forall o | o in Opportunities(rows) ensures exists m :: m in rows && o == ToOpportunity(m) {
        var i :| 0 <= i < |rows| && Opportunities(rows)[i] == o;
        assert rows[i] in rows;
      }
      forall o | exists m :: m in rows && o == ToOpportunity(m) ensures o in Opportunities(rows) {
        var m :| m in rows && o == ToOpportunity(m);
        var i :| 0 <= i < |rows| && rows[i] == m;
        assert Opportunities(rows)[i] == o;
      }
    }
    r
  }

  /** The opportunities of one category: exactly the formatted rows of that category, by priority. */
  function Select(rows: seq<MergedRow>, c: Category): (r: seq<Opportunity>)
    ensures SortedByPriority(r)
    ensures multiset(r) == multiset(Opportunities(Filter(rows, c)))
    ensures |r| <= |rows|
    ensures forall o :: o in r <==> exists m :: m in rows && InCategory(m, c) && o == ToOpportunity(m)
  {
    FormatOpportunities(Filter(rows, c))
  }

  // ---------------------------------------------------------------------------
  // Summary
  // ---------------------------------------------------------------------------

  function PositionsOf(rows: seq<RankedRow>): (r: seq<Option<real>>)
    ensures |r| == |rows|
  {
    seq(|rows|, i requires 0 <= i < |rows| => rows[i].row.position)
  }

  function TrafficOf(rows: seq<RankedRow>): (r: seq<Option<real>>)
    ensures |r| == |rows|
  {
    seq(|rows|, i requires 0 <= i < |rows| => rows[i].row.traffic)
  }

  function TrafficCostOf(rows: seq<RankedRow>): (r: seq<Option<real>>)
    ensures |r| == |rows|
  {
    seq(|rows|, i requires 0 <= i < |rows| => rows[i].row.trafficCost)
  }

  /** pandas' `sum()`: NaN is skipped, the sum of nothing is 0. */
  function SumPresent(xs: seq<Option<real>>): real {
    if xs == [] then 0.0 else xs[0].GetOr(0.0) + SumPresent(xs[1..])
  }

  function CountPresent(xs: seq<Option<real>>): (r: nat)
    ensures r <= |xs|
  {
    if xs == [] then 0 else (if xs[0].Some? then 1 else 0) + CountPresent(xs[1..])
  }

  /** The number of values at most `bound` (NaN compares false). */
  function CountAtMost(xs: seq<Option<real>>, bound: real): nat {
    if xs == [] then 0
    else (if xs[0].Some? && xs[0].value <= bound then 1 else 0) + CountAtMost(xs[1..], bound)
  }

  /** The number of values above `bound` (NaN compares false). */
  function CountAbove(xs: seq<Option<real>>, bound: real): nat {
    if xs == [] then 0
    else (if xs[0].Some? && xs[0].value > bound then 1 else 0) + CountAbove(xs[1..], bound)
  }

  /** pandas' `mean()`: the mean of the present values, NaN when there are none. */
  function Mean(xs: seq<Option<real>>): Option<real> {
    if CountPresent(xs) == 0 then None else Some(SumPresent(xs) / CountPresent(xs) as real)
  }

  /**
   * Counting against a lower and a higher bound: the lower count never exceeds the higher one,
   * and every value is at most the bound, above it, or missing.
   */
  lemma {:induction false} CountsPartition(xs: seq<Option<real>>, lo: real, hi: real)
    requires lo <= hi
    ensures CountAtMost(xs, lo) <= CountAtMost(xs, hi)
    ensures CountAtMost(xs, hi) + CountAbove(xs, hi) + (|xs| - CountPresent(xs)) == |xs|
  {
    if xs != [] {
      CountsPartition(xs[1..], lo, hi);
    }
  }

  lemma {:induction false} SumBounds(xs: seq<Option<real>>, lo: real, hi: real)
    requires forall i :: 0 <= i < |xs| && xs[i].Some? ==> lo <= xs[i].value <= hi
    ensures CountPresent(xs) as real * lo <= SumPresent(xs) <= CountPresent(xs) as real * hi
  {
    if xs != [] {
      SumBounds(xs[1..], lo, hi);
      var n := CountPresent(xs[1..]) as real;
      if xs[0].Some? {
        assert CountPresent(xs) as real == n + 1.0;
        assert (n + 1.0) * lo == n * lo + lo && (n + 1.0) * hi == n * hi + hi;
      }
    }
  }

  /** The average lies between the least and the greatest present value. */
  lemma MeanBounds(xs: seq<Option<real>>, lo: real, hi: real)
    requires forall i :: 0 <= i < |xs| && xs[i].Some? ==> lo <= xs[i].value <= hi
    ensures Mean(xs).Some? <==> exists i :: 0 <= i < |xs| && xs[i].Some?
    ensures Mean(xs).Some? ==> lo <= Mean(xs).value <= hi
  {
    SumBounds(xs, lo, hi);
    PresentIffCount(xs);
    if CountPresent(xs) > 0 {
      var n := CountPresent(xs) as real;
      var s := SumPresent(xs);
      assert n * lo <= s <= n * hi;
      DivBounds(s, n, lo, hi);
    }
  }

  lemma DivBounds(s: real, n: real, lo: real, hi: real)
    requires n > 0.0 && n * lo <= s <= n * hi
    ensures lo <= s / n <= hi
  {
    assert s / n * n == s;
  }

  lemma {:induction false} PresentIffCount(xs: seq<Option<real>>)
    ensures CountPresent(xs) > 0 <==> exists i :: 0 <= i < |xs| && xs[i].Some?
  {
    if xs != [] {
      PresentIffCount(xs[1..]);
      if exists i :: 0 <= i < |xs[1..]| && xs[1..][i].Some? {
        var i :| 0 <= i < |xs[1..]| && xs[1..][i].Some?;
        assert xs[i + 1].Some?;
      }
      if exists i :: 0 <= i < |xs| && xs[i].Some? {
        var i :| 0 <= i < |xs| && xs[i].Some?;
        if i > 0 {
          assert xs[1..][i - 1].Some?;
        }
      }
    }
  }

  datatype Metrics = Metrics(
    totalKeywords: nat,
    avgPosition: Option<real>,
    totalTraffic: real,
    totalTrafficCost: real,
    top3Keywords: nat,
    top10Keywords: nat,
    keywords11Plus: nat)

  /**
   * `_calculate_metrics`: nothing for an empty table; otherwise the keyword count, the mean
   * position, the traffic and traffic-cost sums and the top-3, top-10 and beyond-10 counts.
   */
  function CalculateMetrics(rows: seq<RankedRow>): (r: Option<Metrics>)
    ensures r.None? <==> rows == []
    ensures r.Some? ==> r.value.totalKeywords == |rows|
    ensures r.Some? ==> r.value.top3Keywords <= r.value.top10Keywords <= r.value.totalKeywords
    ensures r.Some? ==> r.value.top10Keywords + r.value.keywords11Plus + (|rows| - CountPresent(PositionsOf(rows))) == |rows|
  {
    if rows == [] then None
    else
      var ps := PositionsOf(rows);
      CountsPartition(ps, 3.0, 10.0);
      Some(Metrics(|rows|, Mean(ps), SumPresent(TrafficOf(rows)), SumPresent(TrafficCostOf(rows)),
                   CountAtMost(ps, 3.0), CountAtMost(ps, 10.0), CountAbove(ps, 10.0)))
  }

  /** When every row has a position, the top-10 and beyond-10 counts add up to the total. */
  lemma MetricsAllRanked(rows: seq<RankedRow>)
    requires rows != [] && forall i :: 0 <= i < |rows| ==> rows[i].row.position.Some?
    ensures CalculateMetrics(rows).value.top10Keywords + CalculateMetrics(rows).value.keywords11Plus == |rows|
  {
    AllPresent(PositionsOf(rows));
  }

  lemma {:induction false} AllPresent(xs: seq<Option<real>>)
    requires forall i :: 0 <= i < |xs| ==> xs[i].Some?
    ensures CountPresent(xs) == |xs|
  {
    if xs != [] {
      AllPresent(xs[1..]);
    }
  }

  /** The mean position of a non-empty table lies within the range of its positions. */
  lemma MetricsAveragePosition(rows: seq<RankedRow>, lo: real, hi: real)
    requires rows != []
    requires forall i :: 0 <= i < |rows| && rows[i].row.position.Some? ==> lo <= rows[i].row.position.value <= hi
    ensures CalculateMetrics(rows).value.avgPosition.Some? ==>
      lo <= CalculateMetrics(rows).value.avgPosition.value <= hi
    ensures CalculateMetrics(rows).value.avgPosition.None? <==>
      forall i :: 0 <= i < |rows| ==> rows[i].row.position.None?
  {
    var ps := PositionsOf(rows);
    MeanBounds(ps, lo, hi);
    assert forall i :: 0 <= i < |rows| ==> ps[i] == rows[i].row.position;
  }

  /**
   * `_calculate_market_share` on the two traffic totals: both shares 0 when the total is 0,
   * otherwise percentages of the total.
   */
  function MarketShare(clientTraffic: real, competitorTraffic: real): (r: (real, real))
    ensures clientTraffic + competitorTraffic == 0.0 ==> r == (0.0, 0.0)
    ensures clientTraffic + competitorTraffic != 0.0 ==> r.0 + r.1 == 100.0
    ensures clientTraffic + competitorTraffic != 0.0 && clientTraffic >= 0.0 && competitorTraffic >= 0.0 ==>
      0.0 <= r.0 <= 100.0 && 0.0 <= r.1 <= 100.0
    ensures clientTraffic + competitorTraffic != 0.0 ==>
      r.0 * (clientTraffic + competitorTraffic) == clientTraffic * 100.0
  {
    var total := clientTraffic + competitorTraffic;
    if total == 0.0 then (0.0, 0.0)
    else
      ShareFacts(clientTraffic, competitorTraffic);
      ((clientTraffic / total) * 100.0, (competitorTraffic / total) * 100.0)
  }

  lemma ShareFacts(c: real, k: real)
    requires c + k != 0.0
    ensures (c / (c + k)) * 100.0 + (k / (c + k)) * 100.0 == 100.0
    ensures c >= 0.0 && k >= 0.0 ==> 0.0 <= (c / (c + k)) * 100.0 <= 100.0 && 0.0 <= (k / (c + k)) * 100.0 <= 100.0
    ensures (c / (c + k)) * 100.0 * (c + k) == c * 100.0
  {
    var t := c + k;
    var p := c / t;
    var q := k / t;
    assert p * t == c && q * t == k;
    assert (p + q - 1.0) * t == p * t + q * t - t;
    assert p + q == 1.0;
    if c >= 0.0 && k >= 0.0 {
      DivBounds(c, t, 0.0, 1.0);
      DivBounds(k, t, 0.0, 1.0);
    }
    assert p * 100.0 * t == (p * t) * 100.0;
  }

  /** The traffic shares of the two deduplicated tables. */
  function MarketShareOf(client: seq<RankedRow>, competitor: seq<RankedRow>): (real, real) {
    MarketShare(SumPresent(TrafficOf(client)), SumPresent(TrafficOf(competitor)))
  }

  /** Competitor ahead of the client. */
  predicate CompetitorAhead(m: MergedRow) {
    m.competitor.position < m.client.position
  }

  /** `_calculate_overall_opportunity`: the competitor volume of the rows where the competitor is ahead. */
  function OverallOpportunity(rows: seq<MergedRow>): real {
    if rows == [] then 0.0
    else (if CompetitorAhead(rows[0]) then rows[0].competitor.searchVolume else 0.0) + OverallOpportunity(rows[1..])
  }

  /** The competitor volume of the rows of a category. */
  function VolumeIn(rows: seq<MergedRow>, c: Category): real {
    if rows == [] then 0.0
    else (if InCategory(rows[0], c) then rows[0].competitor.searchVolume else 0.0) + VolumeIn(rows[1..], c)
  }

  /** With no row where the competitor is ahead, the overall opportunity is 0. */
  lemma {:induction false} OverallOpportunityZero(rows: seq<MergedRow>)
    requires forall m :: m in rows ==> !CompetitorAhead(m)
    ensures OverallOpportunity(rows) == 0.0
  {
    if rows != [] {
      assert rows[0] in rows;
      assert forall m :: m in rows[1..] ==> m in rows;
      OverallOpportunityZero(rows[1..]);
    }
  }

  /**
   * Every quick win and every steal opportunity has the competitor ahead and no row is both,
   * so, with non-negative volumes, their competitor volumes together are within the overall opportunity.
   */
  lemma {:induction false} OverallOpportunityCovers(rows: seq<MergedRow>)
    requires forall m :: m in rows ==> m.competitor.searchVolume >= 0.0
    ensures VolumeIn(rows, QuickWin) + VolumeIn(rows, Steal) <= OverallOpportunity(rows)
  {
    if rows != [] {
      assert forall m :: m in rows[1..] ==> m in rows;
      OverallOpportunityCovers(rows[1..]);
      var m := rows[0];
      assert m in rows;
      if IsQuickWin(m) {
        QuickWinExclusive(m);
      }
      if IsSteal(m) {
        StealIff(m);
      }
    }
  }

  datatype Summary = Summary(
    client: Option<Metrics>,
    competitor: Option<Metrics>,
    marketShare: (real, real),
    opportunityScore: real)

  // ---------------------------------------------------------------------------
  // The analyzer object
  // ---------------------------------------------------------------------------

  /** The analysis engine: the two deduplicated tables and their merge, set by `LoadData`. */
  class KeywordGapAnalyzer {
    var clientTable: Option<seq<RankedRow>>
    var competitorTable: Option<seq<RankedRow>>
    var merged: Option<seq<MergedRow>>

    /** A freshly built analyzer holds no data yet. */
    constructor()
      ensures clientTable == None && competitorTable == None && merged == None
    {
      clientTable := None;
      competitorTable := None;
      merged := None;
    }

    /** Tables are loaded and merged, each keyword of either side once in the merge. */
    ghost predicate Valid()
      reads this
    {
      clientTable.Some? && competitorTable.Some? && merged.Some? &&
      UniqueKeys(clientTable.value, RankedKey) && UniqueKeys(competitorTable.value, RankedKey) &&
      UniqueKeys(merged.value, MergedKey) &&
      KeySet(merged.value, MergedKey) == KeySet(clientTable.value, RankedKey) + KeySet(competitorTable.value, RankedKey)
    }

    /** `load_data`: deduplicate each side, then merge. */
    method LoadData(client: seq<KeywordRow>, competitor: seq<KeywordRow>)
      modifies this
      ensures clientTable == Some(Deduplicate(client)) && competitorTable == Some(Deduplicate(competitor))
      ensures merged == Some(Merge(Deduplicate(client), Deduplicate(competitor)))
      ensures Valid()
      ensures KeySet(merged.value, MergedKey) == (KeySet(client, KeywordOf) + KeySet(competitor, KeywordOf)) - {Blank}
    {
      clientTable := Some(Deduplicate(client));
      competitorTable := Some(Deduplicate(competitor));
      DeduplicateSpec(client);
      DeduplicateSpec(competitor);
      MergeData();
      MergeSpec(clientTable.value, competitorTable.value);
    }

    /** `_merge_data`: the outer join, with each joined row filled. */
    method MergeData()
      requires clientTable.Some? && competitorTable.Some?
      modifies this
      ensures clientTable == old(clientTable) && competitorTable == old(competitorTable)
      ensures merged == Some(Merge(clientTable.value, competitorTable.value))
      ensures UniqueKeys(clientTable.value, RankedKey) && UniqueKeys(competitorTable.value, RankedKey) ==> Valid()
    {
      var client, competitor := clientTable.value, competitorTable.value;
      var joined := OuterJoin(client, competitor, RankedKey);
      ghost var target := Merge(client, competitor);
      var rows: seq<MergedRow> := [];
      var i := 0;
      while i < |joined|
        invariant 0 <= i <= |joined|
        invariant rows == target[..i]
      {
        assert target[i] == Fill(joined[i]);
        assert target[..i + 1] == target[..i] + [target[i]];
        rows := rows + [Fill(joined[i])];
        i := i + 1;
      }
      assert target[..|joined|] == target;
      merged := Some(rows);
      if UniqueKeys(client, RankedKey) && UniqueKeys(competitor, RankedKey) {
        MergeKeys(client, competitor);
      }
    }

    /** `get_quick_wins`: exactly the merged rows that are quick wins, by priority. */
    function QuickWins(): (r: seq<Opportunity>)
      reads this
      requires Valid()
      ensures SortedByPriority(r)
      ensures multiset(r) == multiset(Opportunities(Filter(merged.value, QuickWin)))
      ensures forall o :: o in r <==> exists m :: m in merged.value && IsQuickWin(m) && o == ToOpportunity(m)
    {
      assert forall m :: InCategory(m, QuickWin) == IsQuickWin(m);
      Select(merged.value, QuickWin)
    }

    /** `get_steal_opportunities`: exactly the merged rows that are steal opportunities, by priority. */
    function StealOpportunities(): (r: seq<Opportunity>)
      reads this
      requires Valid()
      ensures SortedByPriority(r)
      ensures multiset(r) == multiset(Opportunities(Filter(merged.value, Steal)))
      ensures forall o :: o in r <==> exists m :: m in merged.value && IsSteal(m) && o == ToOpportunity(m)
    {
      assert forall m :: InCategory(m, Steal) == IsSteal(m);
      Select(merged.value, Steal)
    }

    /** `get_defensive_keywords`: exactly the merged rows to defend, by priority. */
    function DefensiveKeywords(): (r: seq<Opportunity>)
      reads this
      requires Valid()
      ensures SortedByPriority(r)
      ensures multiset(r) == multiset(Opportunities(Filter(merged.value, Defensive)))
      ensures forall o :: o in r <==> exists m :: m in merged.value && IsDefensive(m) && o == ToOpportunity(m)
    {
      assert forall m :: InCategory(m, Defensive) == IsDefensive(m);
      Select(merged.value, Defensive)
    }

    /** `get_client_wins`: exactly the merged rows the client wins, by priority. */
    function ClientWins(): (r: seq<Opportunity>)
      reads this
      requires Valid()
      ensures SortedByPriority(r)
      ensures multiset(r) == multiset(Opportunities(Filter(merged.value, ClientWin)))
      ensures forall o :: o in r <==> exists m :: m in merged.value && IsClientWin(m) && o == ToOpportunity(m)
    {
      assert forall m :: InCategory(m, ClientWin) == IsClientWin(m);
      Select(merged.value, ClientWin)
    }

    /**
     * `_get_funnel_keywords`: exactly the rows whose competitor intent contains `intent`, by
     * priority. It fails (None) when the merged intent column holds no text at all: pandas then
     * stores it as floats, and the `.str` accessor raises.
     */
    function FunnelKeywords(intent: string): (r: Option<seq<Opportunity>>)
      reads this
      requires Valid()
      ensures r.None? <==> !IntentColumnIsText(merged.value, competitorTable.value)
      ensures r.Some? ==> SortedByPriority(r.value)
      ensures r.Some? ==> multiset(r.value) == multiset(Opportunities(Filter(merged.value, Funnel(intent))))
      ensures r.Some? ==> forall o :: o in r.value <==> exists m :: m in merged.value && IsFunnel(m, intent) && o == ToOpportunity(m)
    {
      if IntentColumnIsText(merged.value, competitorTable.value) then
        var s := Select(merged.value, Funnel(intent));
        assert forall m :: InCategory(m, Funnel(intent)) == IsFunnel(m, intent);
        Some(s)
      else None
    }

    /** `get_content_gap_analysis`: the informational, commercial and transactional stages. */
    function ContentGapAnalysis(): (r: Option<(seq<Opportunity>, seq<Opportunity>, seq<Opportunity>)>)
      reads this
      requires Valid()
      ensures r.None? <==> !IntentColumnIsText(merged.value, competitorTable.value)
      ensures r.Some? ==> SortedByPriority(r.value.0) && SortedByPriority(r.value.1) && SortedByPriority(r.value.2)
      ensures r.Some? ==> multiset(r.value.0) == multiset(Opportunities(Filter(merged.value, Funnel("Informational"))))
      ensures r.Some? ==> multiset(r.value.1) == multiset(Opportunities(Filter(merged.value, Funnel("Commercial"))))
      ensures r.Some? ==> multiset(r.value.2) == multiset(Opportunities(Filter(merged.value, Funnel("Transactional"))))
      ensures r.Some? ==> forall o :: o in r.value.0 <==> exists m :: m in merged.value && IsFunnel(m, "Informational") && o == ToOpportunity(m)
      ensures r.Some? ==> forall o :: o in r.value.1 <==> exists m :: m in merged.value && IsFunnel(m, "Commercial") && o == ToOpportunity(m)
      ensures r.Some? ==> forall o :: o in r.value.2 <==> exists m :: m in merged.value && IsFunnel(m, "Transactional") && o == ToOpportunity(m)
    {
      if IntentColumnIsText(merged.value, competitorTable.value) then
        Some((FunnelKeywords("Informational").value, FunnelKeywords("Commercial").value, FunnelKeywords("Transactional").value))
      else None
    }

    /** `get_trending_keywords`: exactly the rows with a positive competitor trend and volume over 100. */
    function TrendingKeywords(): (r: seq<Opportunity>)
      reads this
      requires Valid()
      ensures SortedByPriority(r)
      ensures multiset(r) == multiset(Opportunities(Filter(merged.value, Trending)))
      ensures forall o :: o in r <==> exists m :: m in merged.value && IsTrending(m) && o == ToOpportunity(m)
    {
      assert forall m :: InCategory(m, Trending) == IsTrending(m);
      Select(merged.value, Trending)
    }

    /** `get_executive_summary`: the metrics of each side, the traffic shares and the overall opportunity. */
    function ExecutiveSummary(): (r: Summary)
      reads this
      requires Valid()
      ensures r.client.None? <==> clientTable.value == []
      ensures r.competitor.None? <==> competitorTable.value == []
      ensures r.marketShare.0 + r.marketShare.1 == 0.0 || r.marketShare.0 + r.marketShare.1 == 100.0
      ensures (forall m :: m in merged.value ==> !CompetitorAhead(m)) ==> r.opportunityScore == 0.0
    {
      OverallOpportunityZeroIf(merged.value);
      Summary(CalculateMetrics(clientTable.value), CalculateMetrics(competitorTable.value),
              MarketShareOf(clientTable.value, competitorTable.value), OverallOpportunity(merged.value))
    }
  }

  lemma OverallOpportunityZeroIf(rows: seq<MergedRow>)
    ensures (forall m :: m in rows ==> !CompetitorAhead(m)) ==> OverallOpportunity(rows) == 0.0
  {
    if forall m :: m in rows ==> !CompetitorAhead(m) {
      OverallOpportunityZero(rows);
    }
  }

  // ---------------------------------------------------------------------------
  // The URL join as written
  // ---------------------------------------------------------------------------

  /**
   * The source's `', '.join(urls)` over every URL cell of the keyword: it raises when one of
   * them is not text (a missing URL is NaN, a float), modelled as None.
   */
  function AllUrlsAsWritten(group: seq<KeywordRow>): Option<string> {
    if forall x :: x in group ==> x.url.Text? then Some(Join(", ", UrlTexts(group))) else None
  }

  /** `_deduplicate_keywords` with the source's URL join: None when that join raises for some keyword. */
  function DeduplicateAsWritten(rows: seq<KeywordRow>): Option<seq<RankedRow>> {
    if rows == [] then Some([])
    else if forall k :: k in DistinctKeys(rows) ==> AllUrlsAsWritten(Matching(rows, KeywordOf, k)).Some? then
      Some(Deduplicate(rows))
    else None
  }

  /** Where every URL is text, the source's join and the model's agree. */
  lemma DeduplicateAsWrittenAgrees(rows: seq<KeywordRow>)
    requires forall x :: x in rows ==> x.url.Text?
    ensures DeduplicateAsWritten(rows) == Some(Deduplicate(rows))
  {
    if rows == [] {
      assert Deduplicate(rows) == [];
    }
    forall k | k in DistinctKeys(rows) ensures AllUrlsAsWritten(Matching(rows, KeywordOf, k)).Some? {
    }
  }

  /** A keyword row with only keyword, position and URL set. */
  function SampleRow(keyword: Cell, position: real, url: Cell): KeywordRow {
    KeywordRow(keyword, Some(position), Some(position), Some(500.0), 30.0, 1.0, url,
               Some(10.0), Some(1.0), Some(20.0), Some(0.5), Some(1000.0), Blank, Blank, Blank, Blank, Blank,
               Some(0.0), None, Some(20.0 * position))
  }

  /**
   * One keyword ranking twice, once without a URL: the source's join raises on the missing URL,
   * the model keeps the best row and lists the one URL there is.
   */
  lemma BlankUrlBreaksDeduplicate()
    ensures var rows := [SampleRow(Text("seo"), 4.0, Text("a")), SampleRow(Text("seo"), 2.0, Blank)];
      && DeduplicateAsWritten(rows) == None
      && |Deduplicate(rows)| == 1
      && Deduplicate(rows)[0].row.position == Some(2.0)
      && Deduplicate(rows)[0].allUrls == "a"
  {
    var a := SampleRow(Text("seo"), 4.0, Text("a"));
    var b := SampleRow(Text("seo"), 2.0, Blank);
    var rows := [a, b];
    assert DistinctKeys(rows) == [Text("seo")] by {
      assert rows[..1] == [a];
      assert DistinctKeys([a]) == [Text("seo")];
    }
    assert Matching(rows, KeywordOf, Text("seo")) == rows by {
      assert rows[1..][1..] == [];
    }
    assert BestOf(rows) == b by {
      assert rows[1..] == [b];
    }
    assert UrlTexts(rows) == ["a"] by {
      assert rows[1..] == [b];
      assert rows[1..][1..] == [];
    }
    assert AllUrlsAsWritten(rows) == None by {
      assert b in rows;
    }
  }

}
