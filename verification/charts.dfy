/**
 * The rules behind the charts: position buckets and the per-bucket traffic totals, the
 * opportunity-matrix filter and score, and the opportunity type and differences of the
 * competitive analysis table.
 */
module Charts {
  import opened Wrappers
  import opened Cells
  import opened Frames
  import opened DataLoader

  // ---------------------------------------------------------------------------
  // Position ranges and traffic distribution
  // ---------------------------------------------------------------------------

  datatype PositionRange = Top3 | From4To10 | From11To20 | Over20

  /** The order of the buckets, best first. */
  function RangeIndex(g: PositionRange): nat {
    match g
    case Top3 => 0
    case From4To10 => 1
    case From11To20 => 2
    case Over20 => 3
  }

  /** `categorize_position`: at most 3, at most 10, at most 20, else 21+ (NaN compares false, so 21+). */
  function CategorizePosition(p: Option<real>): PositionRange {
    if p.Some? && p.value <= 3.0 then Top3
    else if p.Some? && p.value <= 10.0 then From4To10
    else if p.Some? && p.value <= 20.0 then From11To20
    else Over20
  }

  /** Each bucket holds exactly the positions of its range; a larger position never gets a better bucket. */
  lemma CategorizePositionSpec(p: Option<real>, q: Option<real>)
    ensures CategorizePosition(p) == Top3 <==> p.Some? && p.value <= 3.0
    ensures CategorizePosition(p) == From4To10 <==> p.Some? && 3.0 < p.value <= 10.0
    ensures CategorizePosition(p) == From11To20 <==> p.Some? && 10.0 < p.value <= 20.0
    ensures CategorizePosition(p) == Over20 <==> p.None? || p.value > 20.0
    ensures p.Some? && q.Some? && p.value <= q.value ==>
      RangeIndex(CategorizePosition(p)) <= RangeIndex(CategorizePosition(q))
  {
  }

  /** A table row with the `Position Range` column (None until it is added). */
  datatype RangedRow = RangedRow(row: KeywordRow, positionRange: Option<PositionRange>)

  function Ranged(x: RangedRow): RangedRow {
    x.(positionRange := Some(CategorizePosition(x.row.position)))
  }

  /** Adding the column twice is adding it once: it depends on the position only. */
  lemma RangedIdempotent(x: RangedRow)
    ensures Ranged(Ranged(x)) == Ranged(x)
    ensures Ranged(x).row == x.row && Ranged(x).positionRange.Some?
  {
  }

  /** Writes the `Position Range` column into the table in place. */
  method AssignRanges(table: array<RangedRow>)
    modifies table
    ensures forall i :: 0 <= i < table.Length ==> table[i] == Ranged(old(table[i]))
  {
    var i := 0;
    while i < table.Length
      invariant 0 <= i <= table.Length
      invariant forall k :: 0 <= k < i ==> table[k] == Ranged(old(table[k]))
      invariant forall k :: i <= k < table.Length ==> table[k] == old(table[k])
    {
      table[i] := Ranged(table[i]);
      i := i + 1;
    }
  }

  /** The traffic of the rows in bucket `g` (NaN traffic skipped). */
  function RangeTraffic(rows: seq<RangedRow>, g: PositionRange): real {
    if rows == [] then 0.0
    else (if rows[0].positionRange == Some(g) then rows[0].row.traffic.GetOr(0.0) else 0.0) + RangeTraffic(rows[1..], g)
  }

  /** The traffic of all rows (NaN traffic skipped). */
  function TotalTraffic(rows: seq<RangedRow>): real {
    if rows == [] then 0.0 else rows[0].row.traffic.GetOr(0.0) + TotalTraffic(rows[1..])
  }

  function RangesPresent(rows: seq<RangedRow>): set<PositionRange> {
    set x | x in rows && x.positionRange.Some? :: x.positionRange.value
  }

  /** `groupby('Position Range')['Traffic'].sum()`: one total per bucket that occurs. */
  function TrafficByRange(rows: seq<RangedRow>): map<PositionRange, real> {
    map g | g in RangesPresent(rows) :: RangeTraffic(rows, g)
  }

  /** Once every row has its bucket, the four bucket totals add up to the table's traffic. */
  lemma {:induction false} RangeTrafficAddsUp(rows: seq<RangedRow>)
    requires forall x :: x in rows ==> x.positionRange.Some?
    ensures RangeTraffic(rows, Top3) + RangeTraffic(rows, From4To10) + RangeTraffic(rows, From11To20) +
      RangeTraffic(rows, Over20) == TotalTraffic(rows)
  {
    if rows != [] {
      assert rows[0] in rows;
      assert forall x :: x in rows[1..] ==> x in rows;
      RangeTrafficAddsUp(rows[1..]);
      var t := rows[0].row.traffic.GetOr(0.0);
      match rows[0].positionRange.value
      case Top3 => assert RangeTraffic(rows, Top3) == t + RangeTraffic(rows[1..], Top3);
      case From4To10 => assert RangeTraffic(rows, From4To10) == t + RangeTraffic(rows[1..], From4To10);
      case From11To20 => assert RangeTraffic(rows, From11To20) == t + RangeTraffic(rows[1..], From11To20);
      case Over20 => assert RangeTraffic(rows, Over20) == t + RangeTraffic(rows[1..], Over20);
    }
  }

  /** A bucket that no row falls into has no traffic, so the grouped totals lose nothing. */
  lemma {:induction false} AbsentRangeHasNoTraffic(rows: seq<RangedRow>, g: PositionRange)
    requires g !in RangesPresent(rows)
    ensures RangeTraffic(rows, g) == 0.0
  {
    if rows != [] {
      assert rows[0] in rows;
      assert RangesPresent(rows[1..]) <= RangesPresent(rows) by {
        forall h | h in RangesPresent(rows[1..]) ensures h in RangesPresent(rows) {
          var x :| x in rows[1..] && x.positionRange.Some? && x.positionRange.value == h;
          assert x in rows;
        }
      }
      AbsentRangeHasNoTraffic(rows[1..], g);
    }
  }

  /**
   * `create_traffic_distribution_chart` without the figure: both tables get their
   * `Position Range` column in place (the same table passed twice is fine), then the traffic of
   * each side is totalled per bucket.
   */
  method TrafficDistribution(client: array<RangedRow>, competitor: array<RangedRow>)
    returns (clientTraffic: map<PositionRange, real>, competitorTraffic: map<PositionRange, real>)
    modifies client, competitor
    ensures forall i :: 0 <= i < client.Length ==> client[i] == Ranged(old(client[i]))
    ensures forall i :: 0 <= i < competitor.Length ==> competitor[i] == Ranged(old(competitor[i]))
    ensures clientTraffic == TrafficByRange(client[..]) && competitorTraffic == TrafficByRange(competitor[..])
  {
    AssignRanges(client);
    ghost var clientAfter := client[..];
    AssignRanges(competitor);
    forall i | 0 <= i < client.Length ensures client[i] == Ranged(old(client[i])) {
      if client == competitor {
        RangedIdempotent(old(client[i]));
      }
    }
    clientTraffic := TrafficByRange(client[..]);
    competitorTraffic := TrafficByRange(competitor[..]);
  }

  // ---------------------------------------------------------------------------
  // Opportunity matrix
  // ---------------------------------------------------------------------------

  /** A point of the opportunity matrix. */
  datatype MatrixPoint = MatrixPoint(
    keyword: Cell,
    clientPosition: real,
    competitorPosition: real,
    searchVolume: Option<real>,
    score: Option<real>)

  /**
   * The point of keyword `k`, if it has one: both sides rank for it (their first rows are read)
   * and the competitor is strictly ahead; the score is the competitor's volume over the gap plus one.
   */
  function PointFor(client: seq<KeywordRow>, competitor: seq<KeywordRow>, k: Cell): Option<MatrixPoint> {
    var c := Lookup(client, KeywordOf, k);
    var q := Lookup(competitor, KeywordOf, k);
    if k == Blank || c.None? || q.None? then None
    else if c.value.position.Some? && q.value.position.Some? && q.value.position.value < c.value.position.value then
      var cp := c.value.position.value;
      var qp := q.value.position.value;
      Some(MatrixPoint(k, cp, qp, q.value.searchVolume, Quotient(q.value.searchVolume, Some(cp - qp + 1.0))))
    else None
  }

  function KeywordOf(r: KeywordRow): Cell { r.keyword }

  /** The points of the matrix, as a set: the loop visits the competitor's keywords in no fixed order. */
  function MatrixPoints(client: seq<KeywordRow>, competitor: seq<KeywordRow>): set<MatrixPoint> {
    set k | k in KeySet(competitor, KeywordOf) && PointFor(client, competitor, k).Some? :: PointFor(client, competitor, k).value
  }

  /**
   * The filter and score loop of `create_opportunity_matrix`: every competitor keyword the
   * client also ranks for, where the competitor is ahead, once each.
   */
  method OpportunityMatrix(client: seq<KeywordRow>, competitor: seq<KeywordRow>) returns (opportunities: seq<MatrixPoint>)
    ensures (set o | o in opportunities) == MatrixPoints(client, competitor)
    ensures forall i, j :: 0 <= i < j < |opportunities| ==> opportunities[i].keyword != opportunities[j].keyword
  {
    var clientKeywords := KeySet(client, KeywordOf);
    var competitorKeywords := KeySet(competitor, KeywordOf);
    var remaining := competitorKeywords;
    opportunities := [];
    while remaining != {}
      invariant remaining <= competitorKeywords
      invariant forall o :: o in opportunities ==>
        o.keyword in competitorKeywords - remaining && PointFor(client, competitor, o.keyword) == Some(o)
      invariant forall k :: k in competitorKeywords - remaining && PointFor(client, competitor, k).Some? ==>
        PointFor(client, competitor, k).value in opportunities
      invariant forall i, j :: 0 <= i < j < |opportunities| ==> opportunities[i].keyword != opportunities[j].keyword
      decreases |remaining|
    {
      var k :| k in remaining;
      if k != Blank && k in clientKeywords {
        var clientPos := Lookup(client, KeywordOf, k).value.position;
        var compRow := Lookup(competitor, KeywordOf, k).value;
        var compPos := compRow.position;
        if clientPos.Some? && compPos.Some? && compPos.value < clientPos.value {
          var point := MatrixPoint(k, clientPos.value, compPos.value, compRow.searchVolume,
                                   Quotient(compRow.searchVolume, Some(clientPos.value - compPos.value + 1.0)));
          assert PointFor(client, competitor, k) == Some(point);
          opportunities := opportunities + [point];
        }
      }
      remaining := remaining - {k};
    }
  }

  /**
   * Every point is a keyword both sides rank for with the competitor ahead; the score's divisor
   * exceeds 1, so the score is defined whenever the volume is and, for a positive volume, is below it.
   */
  lemma MatrixPointSpec(client: seq<KeywordRow>, competitor: seq<KeywordRow>, o: MatrixPoint)
    requires o in MatrixPoints(client, competitor)
    ensures o.keyword in KeySet(client, KeywordOf) && o.keyword in KeySet(competitor, KeywordOf) && o.keyword != Blank
    ensures o.competitorPosition < o.clientPosition
    ensures o.clientPosition - o.competitorPosition + 1.0 > 1.0
    ensures o.score.Some? <==> o.searchVolume.Some?
    ensures o.score.Some? ==> o.score.value * (o.clientPosition - o.competitorPosition + 1.0) == o.searchVolume.value
    ensures o.score.Some? && o.searchVolume.value > 0.0 ==> o.score.value < o.searchVolume.value
  {
    var k :| k in KeySet(competitor, KeywordOf) && PointFor(client, competitor, k).Some? &&
      PointFor(client, competitor, k).value == o;
    var d := o.clientPosition - o.competitorPosition + 1.0;
    QuotientTimes(o.searchVolume, Some(d));
    if o.score.Some? && o.searchVolume.value > 0.0 {
      ScoreBelowVolume(o.searchVolume.value, d);
    }
  }

  lemma ScoreBelowVolume(v: real, d: real)
    requires v > 0.0 && d > 1.0
    ensures v / d < v
  {
    var q := v / d;
    assert q * d == v;
    assert q > 0.0;
    assert q * d - q == q * (d - 1.0);
    assert q * (d - 1.0) > 0.0;
  }

  /**
   * Conversely, every keyword both sides rank for, where the first competitor row's position is
   * below the first client row's, has its point in the matrix.
   */
  lemma MatrixPointComplete(client: seq<KeywordRow>, competitor: seq<KeywordRow>, k: Cell)
    requires k != Blank && k in KeySet(client, KeywordOf) && k in KeySet(competitor, KeywordOf)
    requires Lookup(client, KeywordOf, k).value.position.Some?
    requires Lookup(competitor, KeywordOf, k).value.position.Some?
    requires Lookup(competitor, KeywordOf, k).value.position.value < Lookup(client, KeywordOf, k).value.position.value
    ensures PointFor(client, competitor, k).Some? && PointFor(client, competitor, k).value.keyword == k
    ensures PointFor(client, competitor, k).value in MatrixPoints(client, competitor)
  {
  }

  /** Keywords the client does not rank for are never in the matrix. */
  lemma MatrixNeedsBothSides(client: seq<KeywordRow>, competitor: seq<KeywordRow>, k: Cell)
    requires k !in KeySet(client, KeywordOf)
    ensures PointFor(client, competitor, k).None?
  {
  }

  // ---------------------------------------------------------------------------
  // Competitive analysis table
  // ---------------------------------------------------------------------------

  datatype OpportunityType = NewOpportunity | QuickWin | LongTermOpportunity | Defensive

  /**
   * `categorize_opportunity`: no client position is a new opportunity; the competitor ahead is a
   * quick win within the client's top 10 and long-term beyond it; anything else is defensive.
   */
  function CategorizeOpportunity(clientPos: Option<real>, competitorPos: Option<real>): OpportunityType {
    if clientPos.None? then NewOpportunity
    else if competitorPos.Some? && competitorPos.value < clientPos.value then
      if clientPos.value <= 10.0 then QuickWin else LongTermOpportunity
    else Defensive
  }

  /** Each type in terms of the two positions, both directions. */
  lemma CategorizeOpportunitySpec(c: Option<real>, k: Option<real>)
    ensures CategorizeOpportunity(c, k) == NewOpportunity <==> c.None?
    ensures CategorizeOpportunity(c, k) == QuickWin <==> c.Some? && k.Some? && k.value < c.value && c.value <= 10.0
    ensures CategorizeOpportunity(c, k) == LongTermOpportunity <==> c.Some? && k.Some? && k.value < c.value && c.value > 10.0
    ensures CategorizeOpportunity(c, k) == Defensive <==> c.Some? && (k.None? || k.value >= c.value)
  {
  }

  /** A row of the competitive analysis table. */
  datatype AnalysisRow = AnalysisRow(
    keyword: Cell,
    clientPosition: Option<real>,
    competitorPosition: Option<real>,
    searchVolume: Option<real>,
    keywordDifficulty: Option<real>,
    clientTraffic: Option<real>,
    competitorTraffic: Option<real>,
    positionDifference: Option<real>,
    trafficDifference: Option<real>,
    opportunityType: OpportunityType,
    intent: Cell,
    serpFeatures: Cell)

  function Position(s: Option<KeywordRow>): Option<real> {
    if s.Some? then s.value.position else None
  }

  function Traffic(s: Option<KeywordRow>): Option<real> {
    if s.Some? then s.value.traffic else None
  }

  function AnalysisRowOf(p: Joined<KeywordRow>): AnalysisRow {
    var c := Position(p.left);
    var k := Position(p.right);
    AnalysisRow(
      p.key, c, k,
      if p.left.Some? then p.left.value.searchVolume else None,
      if p.left.Some? then Some(p.left.value.difficulty) else None,
      Traffic(p.left), Traffic(p.right),
      Minus(c, k), Minus(Traffic(p.left), Traffic(p.right)),
      CategorizeOpportunity(c, k),
      if p.left.Some? then p.left.value.intents else Blank,
      if p.left.Some? then p.left.value.serpFeatures else Blank)
  }

  /** `create_competitive_analysis_table`: the outer join on keyword with the differences and the type. */
  function CompetitiveAnalysisTable(client: seq<KeywordRow>, competitor: seq<KeywordRow>): seq<AnalysisRow> {
    var j := OuterJoin(client, competitor, KeywordOf);
    seq(|j|, i requires 0 <= i < |j| => AnalysisRowOf(j[i]))
  }

  /**
   * Per row, the position difference is client minus competitor and the traffic difference
   * likewise, both NaN when a side is missing; a keyword only the competitor has is a new opportunity.
   */
  lemma CompetitiveAnalysisSpec(client: seq<KeywordRow>, competitor: seq<KeywordRow>)
    ensures forall r :: r in CompetitiveAnalysisTable(client, competitor) ==>
      (r.positionDifference.Some? <==> r.clientPosition.Some? && r.competitorPosition.Some?) &&
      (r.positionDifference.Some? ==>
        r.positionDifference.value + r.competitorPosition.value == r.clientPosition.value) &&
      (r.trafficDifference.Some? <==> r.clientTraffic.Some? && r.competitorTraffic.Some?) &&
      (r.trafficDifference.Some? ==>
        r.trafficDifference.value + r.competitorTraffic.value == r.clientTraffic.value) &&
      (r.positionDifference.Some? && r.positionDifference.value > 0.0 ==>
        r.opportunityType == QuickWin || r.opportunityType == LongTermOpportunity)
    ensures forall r :: r in CompetitiveAnalysisTable(client, competitor) && r.keyword !in KeySet(client, KeywordOf) ==>
      r.clientPosition.None? && r.opportunityType == NewOpportunity
    ensures forall l :: l in client ==>
      exists r :: r in CompetitiveAnalysisTable(client, competitor) &&
        r.keyword == l.keyword && r.clientPosition == l.position && r.clientTraffic == l.traffic
    ensures |CompetitiveAnalysisTable(client, competitor)| >= |client|
  {
    var j := OuterJoin(client, competitor, KeywordOf);
    var t := CompetitiveAnalysisTable(client, competitor);
    OuterJoinSound(client, competitor, KeywordOf);
    assert forall i :: 0 <= i < |t| ==> t[i] == AnalysisRowOf(j[i]) && j[i] in j;
    forall l | l in client
      ensures exists r :: r in t && r.keyword == l.keyword && r.clientPosition == l.position && r.clientTraffic == l.traffic
    {
      var p :| p in j && p.left == Some(l);
      var i :| 0 <= i < |j| && j[i] == p;
      assert t[i] in t;
    }
    LeftRowsAtLeast(client, competitor, KeywordOf);
  }

  lemma {:induction false} LeftRowsAtLeast<T>(left: seq<T>, right: seq<T>, key: T -> Cell)
    ensures |OuterJoin(left, right, key)| >= |left|
  {
    LeftRowsLength(left, right, key);
  }

  lemma {:induction false} LeftRowsLength<T>(left: seq<T>, right: seq<T>, key: T -> Cell)
    ensures |LeftRows(left, right, key)| >= |left|
  {
    if left != [] {
      LeftRowsLength(left[1..], right, key);
    }
  }
}
