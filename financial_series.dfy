/** The chart-data pipeline of the financial dashboard: statement rows become dated series,
    series are windowed, reduced to headline numbers, paired and joined, and bars are
    drawn with a loss colour. Everything here is a pure function of its inputs. */
module FinancialSeries {
  import opened Common

  /** A chart point: one statement value, or a two-metric comparison point. */
  datatype Point = Single(date: string, value: real) | Pair(date: string, metric1: real, metric2: real)

  /** `new Date(label)`: the timestamp of a period label, a total order on labels. */
  type DateOrder = string -> int

  /** `parseFloat` of a comma-free cell; `None` stands for NaN. */
  type Parser = string -> Option<real>

  // ---------------------------------------------------------------------------------
  // Sorting by date (a stable sort, as `Array.prototype.sort` is)
  // ---------------------------------------------------------------------------------

  ghost predicate SortedByDate(s: seq<Point>, when: DateOrder)
  {
    forall i, j :: 0 <= i < j < |s| ==> when(s[i].date) <= when(s[j].date)
  }

  /** Inserts `p` before the first point that is not earlier than it. */
  function Insert(p: Point, s: seq<Point>, when: DateOrder): (r: seq<Point>)
    ensures |r| == |s| + 1
  {
    if s == [] || when(p.date) <= when(s[0].date) then [p] + s
    else [s[0]] + Insert(p, s[1..], when)
  }

  function SortByDate(s: seq<Point>, when: DateOrder): (r: seq<Point>)
    ensures |r| == |s|
  {
    if s == [] then [] else Insert(s[0], SortByDate(s[1..], when), when)
  }

  /** Inserting adds exactly the one point. */
  lemma {:induction false} InsertPermutes(p: Point, s: seq<Point>, when: DateOrder)
    ensures multiset(Insert(p, s, when)) == multiset(s) + multiset{p}
  {
    if s != [] && when(p.date) > when(s[0].date) {
      InsertPermutes(p, s[1..], when);
      assert s == [s[0]] + s[1..];
    }
  }

  /** The sorted series is a permutation of the input. */
  lemma {:induction false} SortPermutes(s: seq<Point>, when: DateOrder)
    ensures multiset(SortByDate(s, when)) == multiset(s)
  {
    if s != [] {
      SortPermutes(s[1..], when);
      InsertPermutes(s[0], SortByDate(s[1..], when), when);
      assert s == [s[0]] + s[1..];
    }
  }

  /** The inserted point or the old first point comes first. */
  lemma InsertFront(p: Point, s: seq<Point>, when: DateOrder)
    ensures Insert(p, s, when)[0] == p || (s != [] && Insert(p, s, when)[0] == s[0])
  {
  }

  lemma {:induction false} InsertSorted(p: Point, s: seq<Point>, when: DateOrder)
    requires SortedByDate(s, when)
    ensures SortedByDate(Insert(p, s, when), when)
  {
    if s != [] && when(p.date) > when(s[0].date) {
      var t := Insert(p, s[1..], when);
      InsertSorted(p, s[1..], when);
      InsertFront(p, s[1..], when);
      assert when(s[0].date) <= when(t[0].date) by {
        if t[0] != p { assert t[0] == s[1]; }
      }
      var r := [s[0]] + t;
      InsertBehind(p, s, when);
      forall i, j | 0 <= i < j < |r| ensures when(r[i].date) <= when(r[j].date) {
        if i == 0 {
          assert r[j] == t[j - 1];
        } else {
          assert r[i] == t[i - 1] && r[j] == t[j - 1];
        }
      }
    }
  }

  /** The sorted series is in non-decreasing date order. */
  lemma {:induction false} SortIsSorted(s: seq<Point>, when: DateOrder)
    ensures SortedByDate(SortByDate(s, when), when)
  {
    if s != [] {
      SortIsSorted(s[1..], when);
      InsertSorted(s[0], SortByDate(s[1..], when), when);
    }
  }

  /** The points of `s` whose date has timestamp `k`, in their order in `s`. */
  function AtTime(s: seq<Point>, when: DateOrder, k: int): (r: seq<Point>)
    ensures forall p :: p in r ==> p in s && when(p.date) == k
  {
    if s == [] then [] else (if when(s[0].date) == k then [s[0]] else []) + AtTime(s[1..], when, k)
  }

  /** `AtTime` of a sequence with one point in front. */
  lemma AtTimeCons(x: Point, t: seq<Point>, when: DateOrder, k: int)
    ensures AtTime([x] + t, when, k) == (if when(x.date) == k then [x] else []) + AtTime(t, when, k)
  {
    assert ([x] + t)[1..] == t;
  }

  /** Inserting after the first point keeps that point in front. */
  lemma InsertBehind(p: Point, s: seq<Point>, when: DateOrder)
    requires s != [] && when(p.date) > when(s[0].date)
    ensures Insert(p, s, when) == [s[0]] + Insert(p, s[1..], when)
  {
  }

  lemma {:induction false} InsertStable(p: Point, s: seq<Point>, when: DateOrder, k: int)
    ensures AtTime(Insert(p, s, when), when, k) == (if when(p.date) == k then [p] else []) + AtTime(s, when, k)
  {
    if s == [] || when(p.date) <= when(s[0].date) {
      AtTimeCons(p, s, when, k);
    } else {
      var rest := Insert(p, s[1..], when);
      InsertStable(p, s[1..], when, k);
      InsertBehind(p, s, when);
      AtTimeCons(s[0], rest, when, k);
      // p is later than s[0] here, so at most one of them is at time k
      if when(s[0].date) == k {
        assert AtTime(rest, when, k) == AtTime(s[1..], when, k);
      } else {
        assert AtTime(Insert(p, s, when), when, k) == AtTime(rest, when, k);
        assert AtTime(s, when, k) == AtTime(s[1..], when, k);
      }
    }
  }

  /** Stability: sorting keeps, for every timestamp, the order of the points carrying it. */
  lemma {:induction false} SortIsStable(s: seq<Point>, when: DateOrder, k: int)
    ensures AtTime(SortByDate(s, when), when, k) == AtTime(s, when, k)
  {
    if s != [] {
      SortIsStable(s[1..], when, k);
      InsertStable(s[0], SortByDate(s[1..], when), when, k);
    }
  }

  // ---------------------------------------------------------------------------------
  // Time windows (`TIME_PERIODS` and `filterDataByTime`)
  // ---------------------------------------------------------------------------------

  /** The `months` of the `ALL` preset, which selects the whole series. */
  const AllMonths := 999

  /** The months of the preset labelled `period`; a label that is no preset counts as 12. */
  function MonthsFor(period: string): (m: nat)
    ensures m > 0
    ensures m == AllMonths <==> period == "ALL"
  {
    if period == "1M" then 1
    else if period == "3M" then 3
    else if period == "6M" then 6
    else if period == "1Y" then 12
    else if period == "ALL" then AllMonths
    else 12
  }

  /** The points a chart shows for the selected preset. */
  function FilterDataByTime(data: Option<seq<Point>>, period: string, when: DateOrder): (r: seq<Point>)
    ensures data.None? || data.value == [] ==> r == []
    ensures data.Some? && period == "ALL" ==> r == data.value
    ensures data.Some? && period != "ALL" ==>
              |r| == Min(MonthsFor(period), |data.value|) && SortedByDate(r, when) &&
              multiset(r) <= multiset(data.value)
    ensures data.Some? && data.value != [] && period != "ALL" ==>
              r == SortByDate(data.value, when)[|data.value| - Min(MonthsFor(period), |data.value|)..]
  {
    if data.None? || |data.value| == 0 then []
    else
      var months := MonthsFor(period);
      if months == AllMonths then data.value
      else
        var start := |data.value| - Min(months, |data.value|);
        SortedSuffix(data.value, start, when);
        SortByDate(data.value, when)[start..]
  }

  /** A suffix of the sorted series is sorted and drawn from the input. */
  lemma SortedSuffix(s: seq<Point>, start: nat, when: DateOrder)
    requires start <= |s|
    ensures SortedByDate(SortByDate(s, when)[start..], when)
    ensures multiset(SortByDate(s, when)[start..]) <= multiset(s)
  {
    SortIsSorted(s, when);
    SortedTail(SortByDate(s, when), start, when);
    SortPermutes(s, when);
    SuffixWithin(SortByDate(s, when), start);
  }

  /** A suffix of a sorted series is sorted. */
  lemma SortedTail(t: seq<Point>, start: nat, when: DateOrder)
    requires start <= |t| && SortedByDate(t, when)
    ensures SortedByDate(t[start..], when)
  {
    forall i, j | 0 <= i < j < |t| - start ensures when(t[start..][i].date) <= when(t[start..][j].date) {
      assert t[start..][i] == t[start + i] && t[start..][j] == t[start + j];
    }
  }

  /** A suffix holds no point more often than the whole. */
  lemma SuffixWithin(t: seq<Point>, start: nat)
    requires start <= |t|
    ensures multiset(t[start..]) <= multiset(t)
  {
    assert t == t[..start] + t[start..];
  }

  /** Outside `ALL`, the window holds the latest points: every point it leaves out is no
      later than every point it keeps. */
  lemma WindowKeepsLatest(data: seq<Point>, period: string, when: DateOrder)
    requires period != "ALL"
    ensures var r := FilterDataByTime(Some(data), period, when);
            forall x, y :: x in multiset(data) - multiset(r) && y in r ==> when(x.date) <= when(y.date)
  {
    if data != [] {
      var sorted := SortByDate(data, when);
      var start := |sorted| - Min(MonthsFor(period), |sorted|);
      SortIsSorted(data, when);
      SortPermutes(data, when);
      SortedSplit(sorted, start, when);
      assert FilterDataByTime(Some(data), period, when) == sorted[start..];
    }
  }

  /** Outside `ALL`, among the points that share a timestamp the window keeps the last
      ones of the input, in input order: what it holds at time `k` is a suffix of what the
      input holds at time `k`. */
  lemma WindowKeepsLaterTies(data: seq<Point>, period: string, when: DateOrder, k: int)
    requires period != "ALL"
    ensures var all := AtTime(data, when, k);
            var kept := AtTime(FilterDataByTime(Some(data), period, when), when, k);
            |kept| <= |all| && kept == all[|all| - |kept|..]
  {
    if data != [] {
      var sorted := SortByDate(data, when);
      var start := |sorted| - Min(MonthsFor(period), |sorted|);
      SortIsStable(data, when, k);
      assert sorted == sorted[..start] + sorted[start..];
      AtTimeAppend(sorted[..start], sorted[start..], when, k);
    }
  }

  /** `AtTime` of a concatenation. */
  lemma {:induction false} AtTimeAppend(a: seq<Point>, b: seq<Point>, when: DateOrder, k: int)
    ensures AtTime(a + b, when, k) == AtTime(a, when, k) + AtTime(b, when, k)
  {
    if a != [] {
      assert (a + b)[0] == a[0];
      assert (a + b)[1..] == a[1..] + b;
      AtTimeAppend(a[1..], b, when, k);
    } else {
      assert a + b == b;
    }
  }

  /** In a sorted series, what precedes a split point is no later than what follows it. */
  lemma SortedSplit(t: seq<Point>, start: nat, when: DateOrder)
    requires start <= |t| && SortedByDate(t, when)
    ensures forall x, y :: x in multiset(t) - multiset(t[start..]) && y in t[start..] ==> when(x.date) <= when(y.date)
  {
    TakenBeforeRest(t, start);
    forall x, y | x in t[..start] && y in t[start..] ensures when(x.date) <= when(y.date) {
      var i :| 0 <= i < start && t[i] == x;
      var j :| start <= j < |t| && t[j] == y;
    }
  }

  /** What a split leaves out of the suffix is the prefix. */
  lemma TakenBeforeRest(t: seq<Point>, start: nat)
    requires start <= |t|
    ensures forall x :: x in multiset(t) - multiset(t[start..]) ==> x in t[..start]
  {
    assert t == t[..start] + t[start..];
    assert multiset(t) - multiset(t[start..]) == multiset(t[..start]);
  }

  /** A label that names no preset selects what `1Y` selects. */
  lemma UnknownPeriodIsOneYear(data: Option<seq<Point>>, period: string, when: DateOrder)
    requires period !in {"1M", "3M", "6M", "1Y", "ALL"}
    ensures FilterDataByTime(data, period, when) == FilterDataByTime(data, "1Y", when)
  {
    assert period != "1M" && period != "3M" && period != "6M" && period != "1Y" && period != "ALL";
    assert MonthsFor(period) == 12 == MonthsFor("1Y");
  }

  // ---------------------------------------------------------------------------------
  // Headline numbers (`getGrowthRate`, latest and average in `MetricsList`)
  // ---------------------------------------------------------------------------------

  /** `getValue`: the `metric1` of a comparison point, the `value` of a single point; on a
      single point it agrees with the `item.value || 0` of the comparison series. */
  function ValueOf(p: Point): (r: real)
    ensures p.Pair? ==> r == p.metric1
    ensures p.Single? ==> r == ValueField(p)
  {
    match p
    case Pair(_, m1, _) => m1
    case Single(_, v) => v
  }

  /** Period-over-period growth of the last two points, as a percentage. */
  function GrowthRate(data: seq<Point>): (r: real)
    ensures |data| < 2 ==> r == 0.0
    ensures |data| >= 2 && ValueOf(data[|data| - 2]) == 0.0 ==> r == 0.0
    ensures |data| >= 2 && ValueOf(data[|data| - 2]) != 0.0 ==>
              r * ValueOf(data[|data| - 2]) == (ValueOf(data[|data| - 1]) - ValueOf(data[|data| - 2])) * 100.0
  {
    if |data| < 2 then 0.0
    else
      var latest := ValueOf(data[|data| - 1]);
      var previous := ValueOf(data[|data| - 2]);
      if previous != 0.0 then (latest - previous) / previous * 100.0 else 0.0
  }

  /** Applying the growth rate to the previous value gives back the latest value; for a
      positive previous value the rate is positive exactly when the series went up. */
  lemma GrowthRateRecoversLatest(data: seq<Point>)
    requires |data| >= 2 && ValueOf(data[|data| - 2]) != 0.0
    ensures var previous := ValueOf(data[|data| - 2]);
            previous + previous * GrowthRate(data) / 100.0 == ValueOf(data[|data| - 1])
    ensures ValueOf(data[|data| - 2]) > 0.0 ==>
              (GrowthRate(data) > 0.0 <==> ValueOf(data[|data| - 1]) > ValueOf(data[|data| - 2]))
  {
    var previous := ValueOf(data[|data| - 2]);
    var latest := ValueOf(data[|data| - 1]);
    var r := GrowthRate(data);
    assert r * previous == (latest - previous) * 100.0;
    assert previous * r / 100.0 == latest - previous;
    if previous > 0.0 {
      if r > 0.0 { assert r * previous > 0.0; }
      if latest > previous { assert r * previous > 0.0; }
    }
  }

  /** `last?.metric1 || last?.value || 0`: the value of the last point, 0 for no points. */
  function LatestValue(data: seq<Point>): (r: real)
    ensures data == [] ==> r == 0.0
    ensures data != [] ==> r == ValueOf(data[|data| - 1])
  {
    if data == [] then 0.0
    else
      var last := data[|data| - 1];
      // an absent field reads as undefined and falls through `||` like 0 does
      var metric1 := if last.Pair? then last.metric1 else 0.0;
      var value := if last.Single? then last.value else 0.0;
      if metric1 != 0.0 then metric1 else if value != 0.0 then value else 0.0
  }

  /** The `reduce` that adds up each point's value, left to right. */
  function SumValues(data: seq<Point>): (r: real)
    ensures data == [] ==> r == 0.0
    ensures |data| == 1 ==> r == ValueOf(data[0])
  {
    if data == [] then 0.0 else SumValues(data[..|data| - 1]) + ValueOf(data[|data| - 1])
  }

  /** Mean value of the window, 0 for an empty window. */
  function AverageValue(data: seq<Point>): (r: real)
    ensures data == [] ==> r == 0.0
    ensures data != [] ==> r * (|data| as real) == SumValues(data)
  {
    if |data| > 0 then SumValues(data) / (|data| as real) else 0.0
  }

  lemma {:induction false} SumBounds(data: seq<Point>, lo: real, hi: real)
    requires forall i :: 0 <= i < |data| ==> lo <= ValueOf(data[i]) <= hi
    ensures (|data| as real) * lo <= SumValues(data) <= (|data| as real) * hi
  {
    if data != [] {
      SumBounds(data[..|data| - 1], lo, hi);
    }
  }

  /** The average lies between any lower and upper bound of the window's values. */
  lemma AverageWithinBounds(data: seq<Point>, lo: real, hi: real)
    requires data != []
    requires forall i :: 0 <= i < |data| ==> lo <= ValueOf(data[i]) <= hi
    ensures lo <= AverageValue(data) <= hi
  {
    SumBounds(data, lo, hi);
    var n := |data| as real;
    var avg := AverageValue(data);
    assert avg * n == SumValues(data);
    PositiveFactor(avg - lo, n);
    PositiveFactor(hi - avg, n);
  }

  /** A product with a positive factor that is not negative has a non-negative other factor. */
  lemma PositiveFactor(d: real, n: real)
    requires n > 0.0
    ensures d * n >= 0.0 ==> d >= 0.0
  {
    if d < 0.0 {
      assert d * n < 0.0;
    }
  }

  // ---------------------------------------------------------------------------------
  // Statement rows to series (`transformData`)
  // ---------------------------------------------------------------------------------

  /** One `[key, cell]` pair of `Object.entries(row)`. */
  type Entry = (string, string)

  /** A statement row: its entries in `Object.entries` order. */
  type Row = seq<Entry>

  /** A statement: a list of rows, one per line item. */
  type Table = seq<Row>

  /** `row[key]`: the cell of the first entry with that key, if any. */
  function Get(row: Row, key: string): (r: Option<string>)
    ensures r.Some? ==> (key, r.value) in row
    ensures r.None? ==> forall e :: e in row ==> e.0 != key
  {
    if row == [] then None
    else if row[0].0 == key then Some(row[0].1)
    else Get(row[1..], key)
  }

  /** The row is the line item `name`: its `row_name` or its `''` cell says so. */
  predicate NamedRow(row: Row, name: string)
  {
    Get(row, "row_name") == Some(name) || Get(row, "") == Some(name)
  }

  /** `data.find(...)` from position `i`: the index of the first row named `name`. */
  function FindRow(table: Table, name: string, i: nat): (r: Option<nat>)
    requires i <= |table|
    ensures r.Some? ==> i <= r.value < |table| && NamedRow(table[r.value], name) &&
                        forall j :: i <= j < r.value ==> !NamedRow(table[j], name)
    ensures r.None? ==> forall j :: i <= j < |table| ==> !NamedRow(table[j], name)
    decreases |table| - i
  {
    if i == |table| then None
    else if NamedRow(table[i], name) then Some(i)
    else FindRow(table, name, i + 1)
  }

  /** `s.includes(part)`: `part` occurs at some position of `s`. */
  predicate Contains(s: string, part: string)
    decreases |s|
  {
    (|part| <= |s| && s[..|part|] == part) || (s != [] && Contains(s[1..], part))
  }

  /** A string that lacks the first character of `part` does not contain `part`. */
  lemma {:induction false} LacksFirstChar(s: string, part: string)
    requires part != [] && part[0] !in s
    ensures !Contains(s, part)
    decreases |s|
  {
    if s != [] {
      LacksFirstChar(s[1..], part);
      if |part| <= |s| { assert s[..|part|][0] == s[0]; }
    }
  }

  /** The columns that become points: not the name columns, no trailing-twelve-months column. */
  predicate KeptColumn(key: string)
    ensures KeptColumn(key) ==> key != "" && key != "row_name" && key != "TTM"
    ensures key != "" && key != "row_name" && 'T' !in key ==> KeptColumn(key)
  {
    assert 'T' !in key ==> !Contains(key, "TTM") by {
      if 'T' !in key { LacksFirstChar(key, "TTM"); }
    }
    key != "" && key != "row_name" && !Contains(key, "TTM")
  }

  /** `String(value).replace(/,/g, '')`. */
  function StripCommas(s: string): (r: string)
    ensures ',' !in r
    ensures |r| <= |s|
  {
    if s == [] then [] else (if s[0] == ',' then [] else [s[0]]) + StripCommas(s[1..])
  }

  /** Comma stripping works piecewise ... */
  lemma {:induction false} StripCommasAppend(a: string, b: string)
    ensures StripCommas(a + b) == StripCommas(a) + StripCommas(b)
  {
    if a != [] {
      StripCommasAppend(a[1..], b);
      var head := if a[0] == ',' then "" else [a[0]];
      assert (a + b)[1..] == a[1..] + b;
      assert (a + b)[0] == a[0];
      calc {
        StripCommas(a + b);
        head + StripCommas(a[1..] + b);
        head + (StripCommas(a[1..]) + StripCommas(b));
        (head + StripCommas(a[1..])) + StripCommas(b);
        StripCommas(a) + StripCommas(b);
      }
    } else {
      assert a + b == b;
    }
  }

  /** ... and leaves a comma-free string alone, so it is exactly the removal of every
      comma with all other characters kept in order. */
  lemma {:induction false} StripCommasKeepsCommaFree(a: string)
    requires ',' !in a
    ensures StripCommas(a) == a
  {
    if a != [] {
      assert ',' !in a[1..];
      StripCommasKeepsCommaFree(a[1..]);
    }
  }

  /** `parseFloat(stripped) || 0`: an unparseable cell counts as 0. */
  function CellValue(parse: Parser, cell: string): (r: real)
    ensures r != 0.0 ==> parse(StripCommas(cell)) == Some(r)
    ensures parse(StripCommas(cell)).Some? ==> r == parse(StripCommas(cell)).value
    ensures parse(StripCommas(cell)).None? ==> r == 0.0
  {
    match parse(StripCommas(cell))
    case Some(v) => v
    case None => 0.0
  }

  /** A cell without commas is parsed as it stands. */
  lemma CommaFreeCellValue(parse: Parser, cell: string)
    requires ',' !in cell
    ensures CellValue(parse, cell) == (if parse(cell).Some? then parse(cell).value else 0.0)
  {
    StripCommasKeepsCommaFree(cell);
  }

  /** The row's kept entries as points, in entry order (the `filter` and `map` stages). */
  function RowPoints(row: Row, parse: Parser): (r: seq<Point>)
    ensures |r| <= |row|
  {
    FilterMap(row, KeptEntry, EntryPoint(parse))
  }

  predicate KeptEntry(e: Entry)
  {
    KeptColumn(e.0)
  }

  /** The point of one entry: the column label as date, the parsed cell as value. */
  function EntryPoint(parse: Parser): Entry -> Point
  {
    (e: Entry) => Single(e.0, CellValue(parse, e.1))
  }

  /** The series of line item `metricName`, sorted by date. */
  function TransformData(data: Option<Table>, metricName: string, when: DateOrder, parse: Parser): (r: seq<Point>)
    ensures data.None? || FindRow(data.value, metricName, 0).None? ==> r == []
  {
    if data.None? then []
    else
      match FindRow(data.value, metricName, 0)
      case None => []
      case Some(i) => SortByDate(RowPoints(data.value[i], parse), when)
  }

  /** What `transformData` returns: nothing without data or without a row named
      `metricName`; otherwise the kept cells of the FIRST such row, each parsed after
      comma stripping, as a date-sorted series that keeps the row's order among equal dates. */
  lemma TransformDataSpec(data: Option<Table>, metricName: string, when: DateOrder, parse: Parser)
    ensures data.None? ==> TransformData(data, metricName, when, parse) == []
    ensures data.Some? && (forall j :: 0 <= j < |data.value| ==> !NamedRow(data.value[j], metricName)) ==>
              TransformData(data, metricName, when, parse) == []
    ensures data.Some? && FindRow(data.value, metricName, 0).Some? ==>
              var row := data.value[FindRow(data.value, metricName, 0).value];
              var r := TransformData(data, metricName, when, parse);
              && SortedByDate(r, when)
              && (forall p :: p in r <==> exists e :: e in row && KeptColumn(e.0) && p == Single(e.0, CellValue(parse, e.1)))
              && (forall k :: AtTime(r, when, k) == AtTime(RowPoints(row, parse), when, k))
  {
    if data.Some? {
      match FindRow(data.value, metricName, 0)
      case None =>
      case Some(i) =>
        var row := data.value[i];
        var pts := RowPoints(row, parse);
        var r := SortByDate(pts, when);
        SortIsSorted(pts, when);
        SortPermutes(pts, when);
        forall k ensures AtTime(r, when, k) == AtTime(pts, when, k) {
          SortIsStable(pts, when, k);
        }
        forall p ensures p in r <==> exists e :: e in row && KeptColumn(e.0) && p == Single(e.0, CellValue(parse, e.1)) {
          assert p in r <==> p in multiset(pts);
          FilterMapMembers(row, KeptEntry, EntryPoint(parse), p);
        }
    }
  }

  /** On the labels of a typical statement row, the column filter keeps the quarters and
      drops the name column and the trailing-twelve-months column. */
  lemma ExampleColumns()
    ensures KeptColumn("Mar 2021") && KeptColumn("Mar 2022")
    ensures !KeptColumn("TTM") && !KeptColumn("row_name") && !KeptColumn("")
  {
    LacksFirstChar("Mar 2021", "TTM");
    LacksFirstChar("Mar 2022", "TTM");
    assert "TTM"[..3] == "TTM";
  }

  /** A cell loses its thousands separator before parsing. */
  lemma ExampleCells(parse: Parser)
    requires parse("1234") == Some(1234.0)
    ensures CellValue(parse, "1,234") == 1234.0
  {
    assert StripCommas("1,234") == "1234";
  }

  // ---------------------------------------------------------------------------------
  // Comparison series (`combineMetrics`, `calculateAssetUtilization`)
  // ---------------------------------------------------------------------------------

  /** `item.value || 0`: a comparison point has no `value` field. */
  function ValueField(p: Point): real
  {
    if p.Single? then p.value else 0.0
  }

  /** The point `combineMetrics` builds from position `i` of the first series. */
  function PairAt(data1: seq<Point>, data2: seq<Point>, i: nat): Point
    requires i < |data1|
  {
    Pair(data1[i].date, ValueField(data1[i]), if i < |data2| then ValueField(data2[i]) else 0.0)
  }

  /** Kept comparison points: a non-empty date and at least one nonzero metric. */
  predicate KeepPair(p: Point)
  {
    p.Pair? && p.date != "" && (p.metric1 != 0.0 || p.metric2 != 0.0)
  }

  /** Index-aligned pairing of two series, dropping points where both metrics are 0. */
  function CombineSeries(data1: seq<Point>, data2: seq<Point>): (r: seq<Point>)
    ensures |r| <= |data1|
  {
    FilterMap(Paired(data1, data2), KeepPair, Same)
  }

  /** `data1.map((item, index) => ...)`. */
  function Paired(data1: seq<Point>, data2: seq<Point>): (r: seq<Point>)
    ensures |r| == |data1|
    ensures forall i :: 0 <= i < |data1| ==> r[i] == PairAt(data1, data2, i)
  {
    seq(|data1|, i requires 0 <= i < |data1| => PairAt(data1, data2, i))
  }

  /** The identity: `combineMetrics` maps nothing after its filter, so `CombineSeries` is a
      `FilterMap` with this as its map. */
  function Same(p: Point): Point
  {
    p
  }

  /** `combineMetrics(metric1, metric2)`: both line items are read from the profit-and-loss statement. */
  function CombineMetrics(profitLoss: Table, metric1: string, metric2: string, when: DateOrder, parse: Parser): (r: seq<Point>)
    ensures FindRow(profitLoss, metric1, 0).None? ==> r == []
    ensures |r| <= |TransformData(Some(profitLoss), metric1, when, parse)|
  {
    CombineSeries(TransformData(Some(profitLoss), metric1, when, parse),
                  TransformData(Some(profitLoss), metric2, when, parse))
  }

  /** The pairing is by position: each kept point comes from an increasing position `i` of
      the first series, takes its date and value, takes the second series' value at `i` or
      0 past its end, and every position with a date and a nonzero metric is kept. */
  lemma CombineSeriesSpec(data1: seq<Point>, data2: seq<Point>)
    ensures var idx := KeptFrom(Paired(data1, data2), KeepPair, 0);
            var r := CombineSeries(data1, data2);
            && |r| == |idx| <= |data1|
            && Increasing(idx)
            && (forall k :: 0 <= k < |r| ==>
                  && 0 <= idx[k] < |data1|
                  && r[k] == Pair(data1[idx[k]].date, ValueField(data1[idx[k]]),
                                  if idx[k] < |data2| then ValueField(data2[idx[k]]) else 0.0)
                  && r[k].date != ""
                  && (r[k].metric1 != 0.0 || r[k].metric2 != 0.0))
            && (forall i :: (0 <= i < |data1| && data1[i].date != "" &&
                   (ValueField(data1[i]) != 0.0 || (i < |data2| && ValueField(data2[i]) != 0.0))) ==> i in idx)
  {
    var paired := Paired(data1, data2);
    FilterMapSelects(paired, KeepPair, Same);
    var idx := KeptFrom(paired, KeepPair, 0);
    forall i | 0 <= i < |data1| && data1[i].date != "" &&
               (ValueField(data1[i]) != 0.0 || (i < |data2| && ValueField(data2[i]) != 0.0))
      ensures i in idx
    {
      assert KeepPair(paired[i]);
    }
  }

  /** `new Map(sales.map(item => [item.date, item.value]))`: a later point overwrites an
      earlier one with the same date. */
  function SalesByDate(sales: seq<Point>): (m: map<string, real>)
    ensures m.Keys == set p | p in sales :: p.date
    ensures forall i :: 0 <= i < |sales| && (forall j :: i < j < |sales| ==> sales[j].date != sales[i].date) ==>
              m[sales[i].date] == ValueField(sales[i])
  {
    if sales == [] then map[]
    else
      var init := sales[..|sales| - 1];
      var last := sales[|sales| - 1];
      assert sales == init + [last];
      SalesByDate(init)[last.date := ValueField(last)]
  }

  /** An asset point that passes the filter: nonzero assets and nonzero sales on its date. */
  predicate Utilizable(asset: Point, salesMap: map<string, real>)
  {
    ValueField(asset) != 0.0 && asset.date in salesMap && salesMap[asset.date] != 0.0
  }

  /** Sales over assets, as a percentage, on the asset point's date. */
  function UtilizationPoint(asset: Point, salesMap: map<string, real>): Point
  {
    Single(asset.date,
           if Utilizable(asset, salesMap) then salesMap[asset.date] / ValueField(asset) * 100.0 else 0.0)
  }

  /** The date-keyed join of the asset series with the sales series. */
  function AssetUtilizationSeries(sales: seq<Point>, assets: seq<Point>): (r: seq<Point>)
    ensures |r| <= |assets|
  {
    var salesMap := SalesByDate(sales);
    FilterMap(assets, UtilizableIn(salesMap), UtilizationIn(salesMap))
  }

  function UtilizableIn(salesMap: map<string, real>): Point -> bool
  {
    (a: Point) => Utilizable(a, salesMap)
  }

  function UtilizationIn(salesMap: map<string, real>): Point -> Point
  {
    (a: Point) => UtilizationPoint(a, salesMap)
  }

  /** `calculateAssetUtilization`: `Sales+` from profit and loss against `Total Assets` from the balance sheet. */
  function CalculateAssetUtilization(profitLoss: Table, balanceSheet: Table, when: DateOrder, parse: Parser): (r: seq<Point>)
    ensures FindRow(balanceSheet, "Total Assets", 0).None? ==> r == []
    ensures |r| <= |TransformData(Some(balanceSheet), "Total Assets", when, parse)|
  {
    AssetUtilizationSeries(TransformData(Some(profitLoss), "Sales+", when, parse),
                           TransformData(Some(balanceSheet), "Total Assets", when, parse))
  }

  /** The join keeps, in asset order, exactly the asset points with a nonzero value whose
      date has nonzero sales; its value is those sales as a percentage of the assets, the
      sales being those of the last sales point with that date. */
  lemma AssetUtilizationSpec(sales: seq<Point>, assets: seq<Point>)
    ensures var salesMap := SalesByDate(sales);
            var idx := KeptFrom(assets, UtilizableIn(salesMap), 0);
            var r := AssetUtilizationSeries(sales, assets);
            && |r| == |idx|
            && Increasing(idx)
            && (forall k :: 0 <= k < |r| ==>
                  && 0 <= idx[k] < |assets|
                  && assets[idx[k]].date in salesMap
                  && r[k].Single?
                  && r[k].date == assets[idx[k]].date
                  && ValueField(assets[idx[k]]) != 0.0
                  && salesMap[r[k].date] != 0.0
                  && r[k].value == salesMap[r[k].date] / ValueField(assets[idx[k]]) * 100.0)
            && (forall j :: (0 <= j < |assets| && ValueField(assets[j]) != 0.0 &&
                   assets[j].date in salesMap && salesMap[assets[j].date] != 0.0) ==> j in idx)
  {
    JoinSpec(SalesByDate(sales), assets);
  }

  /** `JoinSpec` for a given sales map. */
  lemma JoinSpec(salesMap: map<string, real>, assets: seq<Point>)
    ensures var idx := KeptFrom(assets, UtilizableIn(salesMap), 0);
            var r := FilterMap(assets, UtilizableIn(salesMap), UtilizationIn(salesMap));
            && |r| == |idx|
            && Increasing(idx)
            && (forall k :: 0 <= k < |r| ==>
                  && 0 <= idx[k] < |assets|
                  && assets[idx[k]].date in salesMap
                  && r[k].Single?
                  && r[k].date == assets[idx[k]].date
                  && ValueField(assets[idx[k]]) != 0.0
                  && salesMap[r[k].date] != 0.0
                  && r[k].value == salesMap[r[k].date] / ValueField(assets[idx[k]]) * 100.0)
            && (forall j :: (0 <= j < |assets| && ValueField(assets[j]) != 0.0 &&
                   assets[j].date in salesMap && salesMap[assets[j].date] != 0.0) ==> j in idx)
  {
    var keep := UtilizableIn(salesMap);
    FilterMapSelects(assets, keep, UtilizationIn(salesMap));
    var idx := KeptFrom(assets, keep, 0);
    var r := FilterMap(assets, UtilizableIn(salesMap), UtilizationIn(salesMap));
    forall k | 0 <= k < |r|
      ensures 0 <= idx[k] < |assets|
      ensures assets[idx[k]].date in salesMap
      ensures r[k] == UtilizationPoint(assets[idx[k]], salesMap)
      ensures r[k].Single? && r[k].date == assets[idx[k]].date
      ensures ValueField(assets[idx[k]]) != 0.0
      ensures salesMap[r[k].date] != 0.0
      ensures r[k].value == salesMap[r[k].date] / ValueField(assets[idx[k]]) * 100.0
    {
      var a := assets[idx[k]];
      assert keep(a);
      assert Utilizable(a, salesMap);
      assert r[k] == UtilizationIn(salesMap)(a);
    }
    forall j | 0 <= j < |assets| && ValueField(assets[j]) != 0.0 &&
               assets[j].date in salesMap && salesMap[assets[j].date] != 0.0
      ensures j in idx
    {
      assert keep(assets[j]);
    }
  }

  /** The ratio is the sales as a percentage of the assets: scaled back by the assets it
      gives 100 times the sales. */
  lemma UtilizationRecoversSales(asset: Point, salesMap: map<string, real>)
    requires Utilizable(asset, salesMap)
    ensures UtilizationPoint(asset, salesMap).value * ValueField(asset) == salesMap[asset.date] * 100.0
  {
    var base := ValueField(asset);
    var ratio := salesMap[asset.date] / base;
    assert ratio * base == salesMap[asset.date];
    assert ratio * 100.0 * base == ratio * base * 100.0;
  }

  // ---------------------------------------------------------------------------------
  // Bar geometry (`CustomBar`, `CustomMiniBar`)
  // ---------------------------------------------------------------------------------

  /** The fill of a bar whose value is negative. */
  const LossFill := "#ef4444"

  datatype Rect = Rect(x: real, y: real, width: real, height: real, fill: string)

  /** The rectangle drawn for a bar at (x, y) with signed height `height`. */
  function BarRect(x: real, y: real, width: real, height: real, value: real, color: string): (r: Rect)
    ensures value < 0.0 ==> r.fill == LossFill
    ensures value >= 0.0 ==> r.fill == color
    ensures r.height >= 0.0 && (r.height == height || r.height == -height)
    ensures r.x == x && r.width == width
    ensures value >= 0.0 ==> r.y == y
    ensures value < 0.0 ==> r.y == y + height
  {
    var fill := if value < 0.0 then LossFill else color;
    var yPos := if value >= 0.0 then y else y + height;
    var barHeight := if height < 0.0 then -height else height;
    Rect(x, yPos, width, barHeight, fill)
  }

  /** A bar whose height has the sign of its value covers exactly the vertical span from
      `y` to `y + height`, drawn with a non-negative height; with a series colour other
      than the loss colour, the fill is the loss colour exactly for negative values. */
  lemma BarCoversSignedSpan(x: real, y: real, width: real, height: real, value: real, color: string)
    requires (value < 0.0 && height <= 0.0) || (value >= 0.0 && height >= 0.0)
    ensures var r := BarRect(x, y, width, height, value, color);
            && r.y == (if height < 0.0 then y + height else y)
            && r.y + r.height == (if height < 0.0 then y else y + height)
    ensures color != LossFill ==> (BarRect(x, y, width, height, value, color).fill == LossFill <==> value < 0.0)
  {
  }
}
