/** The spend reports: completed payments of one account in a half-open window, grouped by category or by period. */
module Analytics {
  import opened Common
  import opened Strings
  import Money

  /** A payment as the reports see it; the category is its name, None when it has none. */
  datatype Payment = Payment(account: int, amount: nat, category: Option<string>, at: int, completed: bool)

  datatype Window = Window(from: Option<int>, to: int)

  datatype Row<K> = Row(key: K, count: nat, total: nat)

  // ---- Date ranges ----

  const DAY := 86400 * 1000000000

  /** A date parameter as time.Parse reads it: missing, an instant, a day by its first instant, or no date. */
  datatype Stamp = Missing | Instant(at: int) | Day(start: int) | NoDate

  function ParseFromDate(s: Stamp): Result<int> {
    match s
    case Instant(t) => Ok(t)
    case Day(d) => Ok(d)
    case _ => Err(InvalidInput)
  }

  /** A date without a time ends with its day. */
  function ParseToDate(s: Stamp): Result<int> {
    match s
    case Instant(t) => Ok(t)
    case Day(d) => Ok(d + DAY)
    case _ => Err(InvalidInput)
  }

  function ParseDateRange(from: Stamp, to: Stamp, now: int): (r: Result<Window>)
    ensures r.Ok? && r.value.from.Some? ==> r.value.from.value < r.value.to
  {
    var start := if from.Missing? then Ok(None) else
                   var f := ParseFromDate(from); if f.Ok? then Ok(Some(f.value)) else Err(InvalidInput);
    var end := if to.Missing? then Ok(now) else ParseToDate(to);
    if start.Err? || end.Err? then Err(InvalidInput)
    else if start.value.Some? && end.value <= start.value.value then Err(InvalidInput)
    else Ok(Window(start.value, end.value))
  }

  // ---- Selection ----

  predicate Selected(p: Payment, account: int, w: Window) {
    p.account == account && p.completed && (w.from.Some? ==> w.from.value <= p.at) && p.at < w.to
  }

  function Select(ps: seq<Payment>, account: int, w: Window): (r: seq<Payment>)
    ensures forall p | p in r :: Selected(p, account, w)
  {
    if ps == [] then []
    else
      var init, p := Select(ps[..|ps| - 1], account, w), ps[|ps| - 1];
      if Selected(p, account, w) then init + [p] else init
  }

  function Total(ps: seq<Payment>): nat {
    if ps == [] then 0 else Total(ps[..|ps| - 1]) + ps[|ps| - 1].amount
  }

  lemma TotalSnoc(ps: seq<Payment>, p: Payment)
    ensures Total(ps + [p]) == Total(ps) + p.amount
  {
  }

  /** Splitting a window at any instant in it splits the payments: counts and sums add up exactly. */
  lemma {:induction false} SplitWindow(ps: seq<Payment>, account: int, from: Option<int>, mid: int, to: int)
    requires from.Some? ==> from.value <= mid
    requires mid <= to
    ensures var a, b, whole := Select(ps, account, Window(from, mid)), Select(ps, account, Window(Some(mid), to)),
                               Select(ps, account, Window(from, to));
            |whole| == |a| + |b| && Total(whole) == Total(a) + Total(b)
  {
    if ps != [] {
      var init, p := ps[..|ps| - 1], ps[|ps| - 1];
      SplitWindow(init, account, from, mid, to);
      TotalSnoc(Select(init, account, Window(from, mid)), p);
      TotalSnoc(Select(init, account, Window(Some(mid), to)), p);
      TotalSnoc(Select(init, account, Window(from, to)), p);
    }
  }

  /** Date-only ranges of adjacent days neither overlap nor leave a gap: the first ends where the second starts, and
      together they are the range from the first day to the last. */
  lemma AdjacentDays(ps: seq<Payment>, account: int, first: int, last: int, end: int, now: int)
    requires first <= last && last + DAY <= end
    ensures var a := ParseDateRange(Day(first), Day(last), now);
            var b := ParseDateRange(Day(last + DAY), Day(end), now);
            var whole := ParseDateRange(Day(first), Day(end), now);
            && a.Ok? && b.Ok? && whole.Ok?
            && b.value.from == Some(a.value.to)
            && |Select(ps, account, whole.value)| == |Select(ps, account, a.value)| + |Select(ps, account, b.value)|
            && Total(Select(ps, account, whole.value)) == Total(Select(ps, account, a.value)) + Total(Select(ps, account, b.value))
  {
  }

  /** A range is refused exactly when a date does not parse or the end is not after the start. */
  lemma RangeRefusedIff(from: Stamp, to: Stamp, now: int)
    ensures ParseDateRange(from, to, now).Err? <==>
      || from.NoDate? || to.NoDate?
      || (!from.Missing? && (if to.Missing? then now else ParseToDate(to).value) <= ParseFromDate(from).value)
  {
  }

  /** An accepted range is the one asked for: from the instant or the first instant of the day given, if any, to the
      instant given, the end of the day given, or now. */
  lemma RangeIs(from: Stamp, to: Stamp, now: int)
    requires ParseDateRange(from, to, now).Ok?
    ensures var w := ParseDateRange(from, to, now).value;
            && w.from == (match from case Missing => None case Instant(t) => Some(t) case Day(d) => Some(d) case NoDate => None)
            && w.to == (match to case Missing => now case Instant(t) => t case Day(d) => d + 86400000000000 case NoDate => now)
  {
  }

  /** The report is about exactly the completed payments of the account from the start on and before the end, each as often
      as it was made, in their order. */
  lemma {:induction false} SelectIs(ps: seq<Payment>, account: int, w: Window, p: Payment)
    ensures var wanted := p.account == account && p.completed && (w.from.Some? ==> w.from.value <= p.at) && p.at < w.to;
            multiset(Select(ps, account, w))[p] == if wanted then multiset(ps)[p] else 0
  {
    if ps != [] {
      SelectIs(ps[..|ps| - 1], account, w, p);
      assert ps == ps[..|ps| - 1] + [ps[|ps| - 1]];
    }
  }

  // ---- Grouping ----

  function CountOf<K(==)>(ps: seq<Payment>, key: Payment -> K, k: K): nat {
    if ps == [] then 0 else CountOf(ps[..|ps| - 1], key, k) + if key(ps[|ps| - 1]) == k then 1 else 0
  }

  function TotalOf<K(==)>(ps: seq<Payment>, key: Payment -> K, k: K): nat {
    if ps == [] then 0 else TotalOf(ps[..|ps| - 1], key, k) + if key(ps[|ps| - 1]) == k then ps[|ps| - 1].amount else 0
  }

  /** GROUP BY: one row for each key that occurs, with its count and its sum. */
  ghost predicate IsGrouping<K(!new)>(ps: seq<Payment>, key: Payment -> K, rows: seq<Row<K>>) {
    && (forall i, j | 0 <= i < j < |rows| :: rows[i].key != rows[j].key)
    && (forall i | 0 <= i < |rows| :: rows[i].count == CountOf(ps, key, rows[i].key) && rows[i].total == TotalOf(ps, key, rows[i].key))
    && (forall p | p in ps :: exists i :: 0 <= i < |rows| && rows[i].key == key(p))
  }

  function RowCounts<K>(rows: seq<Row<K>>): nat {
    if rows == [] then 0 else RowCounts(rows[..|rows| - 1]) + rows[|rows| - 1].count
  }

  function RowTotals<K>(rows: seq<Row<K>>): nat {
    if rows == [] then 0 else RowTotals(rows[..|rows| - 1]) + rows[|rows| - 1].total
  }

  function Without<K(==)>(ps: seq<Payment>, key: Payment -> K, k: K): seq<Payment> {
    if ps == [] then []
    else
      var init, p := Without(ps[..|ps| - 1], key, k), ps[|ps| - 1];
      if key(p) == k then init else init + [p]
  }

  lemma CountSnoc<K(!new)>(ps: seq<Payment>, p: Payment, key: Payment -> K, k: K)
    ensures CountOf(ps + [p], key, k) == CountOf(ps, key, k) + if key(p) == k then 1 else 0
    ensures TotalOf(ps + [p], key, k) == TotalOf(ps, key, k) + if key(p) == k then p.amount else 0
    ensures Without(ps + [p], key, k) == if key(p) == k then Without(ps, key, k) else Without(ps, key, k) + [p]
  {
    assert (ps + [p])[..|ps|] == ps;
  }

  lemma NothingLeft<K(!new)>(key: Payment -> K, k: K)
    ensures Without([], key, k) == []
  {
  }

  /** Leaving one key out leaves the others as they were. */
  lemma {:induction false} OthersStay<K(!new)>(ps: seq<Payment>, key: Payment -> K, k: K, j: K)
    requires j != k
    ensures CountOf(Without(ps, key, k), key, j) == CountOf(ps, key, j) && TotalOf(Without(ps, key, k), key, j) == TotalOf(ps, key, j)
  {
    hide CountOf, TotalOf, Without;
    if ps == [] {
      NothingLeft(key, k);
    } else {
      var init, p := ps[..|ps| - 1], ps[|ps| - 1];
      assert ps == init + [p];
      OthersStay(init, key, k, j);
      CountSnoc(init, p, key, k);
      CountSnoc(init, p, key, j);
      var rest := Without(init, key, k);
      CountSnoc(rest, p, key, j);
      if key(p) == k {
        assert Without(ps, key, k) == rest;
      } else {
        assert Without(ps, key, k) == rest + [p];
      }
    }
  }

  lemma {:induction false} WithoutIs<K(!new)>(ps: seq<Payment>, key: Payment -> K, k: K)
    ensures |ps| == |Without(ps, key, k)| + CountOf(ps, key, k)
    ensures Total(ps) == Total(Without(ps, key, k)) + TotalOf(ps, key, k)
    ensures forall p | p in Without(ps, key, k) :: p in ps && key(p) != k
    ensures forall j | j != k ::
      CountOf(Without(ps, key, k), key, j) == CountOf(ps, key, j) && TotalOf(Without(ps, key, k), key, j) == TotalOf(ps, key, j)
  {
    if ps != [] {
      var init, p := ps[..|ps| - 1], ps[|ps| - 1];
      WithoutIs(init, key, k);
      var rest := Without(init, key, k);
      assert (rest + [p])[..|rest|] == rest;
    }
    forall j | j != k
      ensures CountOf(Without(ps, key, k), key, j) == CountOf(ps, key, j) && TotalOf(Without(ps, key, k), key, j) == TotalOf(ps, key, j)
    {
      OthersStay(ps, key, k, j);
    }
  }

  lemma GroupingWithout<K(!new)>(ps: seq<Payment>, key: Payment -> K, rows: seq<Row<K>>)
    requires IsGrouping(ps, key, rows) && rows != []
    ensures IsGrouping(Without(ps, key, rows[|rows| - 1].key), key, rows[..|rows| - 1])
  {
    hide CountOf, TotalOf, Without;
    var init, last := rows[..|rows| - 1], rows[|rows| - 1];
    WithoutIs(ps, key, last.key);
    var rest := Without(ps, key, last.key);
    forall i | 0 <= i < |init| ensures init[i].key != last.key && init[i] == rows[i] {
    }
    forall p | p in rest ensures exists i :: 0 <= i < |init| && init[i].key == key(p) {
      var i :| 0 <= i < |rows| && rows[i].key == key(p);
      assert init[i].key == key(p);
    }
  }

  lemma SomeRow<K(!new)>(ps: seq<Payment>, key: Payment -> K, rows: seq<Row<K>>)
    requires IsGrouping(ps, key, rows)
    ensures rows == [] ==> ps == []
    ensures rows != [] ==>
      var last := rows[|rows| - 1];
      last.count == CountOf(ps, key, last.key) && last.total == TotalOf(ps, key, last.key)
  {
    assert ps != [] ==> ps[0] in ps;
  }

  /** The rows of any grouping add up to all the payments: every payment is counted, and its amount summed, once. */
  lemma {:induction false} GroupsAddUp<K(!new)>(ps: seq<Payment>, key: Payment -> K, rows: seq<Row<K>>)
    requires IsGrouping(ps, key, rows)
    ensures RowCounts(rows) == |ps| && RowTotals(rows) == Total(ps)
    decreases |rows|
  {
    hide IsGrouping, CountOf, TotalOf, Without;
    SomeRow(ps, key, rows);
    if rows != [] {
      var last := rows[|rows| - 1];
      WithoutIs(ps, key, last.key);
      GroupingWithout(ps, key, rows);
      GroupsAddUp(Without(ps, key, last.key), key, rows[..|rows| - 1]);
    }
  }

  /** Categories and periods are two groupings of the same payments, so their counts and totals agree, whatever the
      granularity. */
  lemma ReportsAgree(ps: seq<Payment>, account: int, w: Window, period: int -> int, byCategory: seq<Row<Option<string>>>,
                     byPeriod: seq<Row<int>>)
    requires IsGrouping(Select(ps, account, w), (p: Payment) => p.category, byCategory)
    requires IsGrouping(Select(ps, account, w), (p: Payment) => period(p.at), byPeriod)
    ensures RowCounts(byCategory) == RowCounts(byPeriod) == |Select(ps, account, w)|
    ensures RowTotals(byCategory) == RowTotals(byPeriod) == Total(Select(ps, account, w))
  {
    GroupsAddUp(Select(ps, account, w), (p: Payment) => p.category, byCategory);
    GroupsAddUp(Select(ps, account, w), (p: Payment) => period(p.at), byPeriod);
  }

  // ---- The queries ----

  ghost predicate Descending<K(!new)>(rows: seq<Row<K>>, rank: Row<K> -> int) {
    forall i, j | 0 <= i < j < |rows| :: rank(rows[i]) >= rank(rows[j])
  }

  function RowOf<K(==)>(ps: seq<Payment>, key: Payment -> K, k: K): Row<K> {
    Row(k, CountOf(ps, key, k), TotalOf(ps, key, k))
  }

  method Highest<K(==, !new)>(ps: seq<Payment>, key: Payment -> K, rank: Row<K> -> int, left: set<K>) returns (k: K)
    requires left != {}
    ensures k in left && forall j | j in left :: rank(RowOf(ps, key, k)) >= rank(RowOf(ps, key, j))
  {
    k :| k in left;
    var rest := left - {k};
    while rest != {}
      invariant k in left && rest <= left
      invariant forall j | j in left && j !in rest :: rank(RowOf(ps, key, k)) >= rank(RowOf(ps, key, j))
      decreases |rest|
    {
      var j :| j in rest;
      if rank(RowOf(ps, key, j)) > rank(RowOf(ps, key, k)) {
        k := j;
      }
      rest := rest - {j};
    }
  }

  /** GROUP BY key ORDER BY rank DESC. */
  method GroupBy<K(==, !new)>(ps: seq<Payment>, key: Payment -> K, rank: Row<K> -> int) returns (rows: seq<Row<K>>)
    ensures IsGrouping(ps, key, rows) && Descending(rows, rank)
  {
    rows := [];
    var left := set p | p in ps :: key(p);
    while left != {}
      invariant forall i | 0 <= i < |rows| :: rows[i] == RowOf(ps, key, rows[i].key) && rows[i].key !in left
      invariant forall i, j | 0 <= i < j < |rows| :: rows[i].key != rows[j].key && rank(rows[i]) >= rank(rows[j])
      invariant forall i, k | 0 <= i < |rows| && k in left :: rank(rows[i]) >= rank(RowOf(ps, key, k))
      invariant forall p | p in ps :: key(p) in left || exists i :: 0 <= i < |rows| && rows[i].key == key(p)
      decreases |left|
    {
      var k := Highest(ps, key, rank, left);
      var before := rows;
      rows := rows + [RowOf(ps, key, k)];
      left := left - {k};
      assert rows[|before|].key == k;
      assert forall i | 0 <= i < |before| :: rows[i] == before[i];
    }
  }

  datatype Item<K> = Item(group: K, count: nat, total: string)

  function Label(category: Option<string>): string {
    if category.Some? then category.value else "uncategorized"
  }

  /** A sum that does not fit bigint fails the query. */
  predicate Fits<K>(rows: seq<Row<K>>) {
    forall i | 0 <= i < |rows| :: rows[i].total <= MAX_INT64
  }

  method AllFit<K>(rows: seq<Row<K>>) returns (b: bool)
    ensures b <==> Fits(rows)
  {
    for i := 0 to |rows|
      invariant forall j | 0 <= j < i :: rows[j].total <= MAX_INT64
    {
      if rows[i].total > MAX_INT64 {
        return false;
      }
    }
    return true;
  }

  /** The category report of a wallet: one item per category name, largest total first. */
  method SpendByCategory(ps: seq<Payment>, wallet: Result<int>, from: Stamp, to: Stamp, now: int)
    returns (r: Result<seq<Item<string>>>, ghost rows: seq<Row<Option<string>>>)
    ensures wallet.Err? ==> r == Err(wallet.error)
    ensures wallet.Ok? && ParseDateRange(from, to, now).Err? ==> r == Err(InvalidInput)
    ensures wallet.Ok? && ParseDateRange(from, to, now).Ok? ==>
      && IsGrouping(Select(ps, wallet.value, ParseDateRange(from, to, now).value), (p: Payment) => p.category, rows)
      && Descending(rows, (row: Row<Option<string>>) => row.total)
      && (if Fits(rows) then r.Ok? && |r.value| == |rows|
            && forall i | 0 <= i < |rows| :: r.value[i] == Item(Label(rows[i].key), rows[i].count, Money.FormatPaise(rows[i].total))
          else r == Err(OutOfRange))
  {
    hide IsGrouping, Descending, Select, ParseDateRange, Money.FormatPaise;
    rows := [];
    if wallet.Err? {
      return Err(wallet.error), rows;
    }
    var w := ParseDateRange(from, to, now);
    if w.Err? {
      return Err(InvalidInput), rows;
    }
    var groups := GroupBy(Select(ps, wallet.value, w.value), (p: Payment) => p.category, (row: Row<Option<string>>) => row.total);
    rows := groups;
    var fit := AllFit(groups);
    if !fit {
      return Err(OutOfRange), rows;
    }
    var items := [];
    for i := 0 to |groups|
      invariant |items| == i
      invariant forall j | 0 <= j < i :: items[j] == Item(Label(groups[j].key), groups[j].count, Money.FormatPaise(groups[j].total))
    {
      items := items + [Item(Label(groups[i].key), groups[i].count, Money.FormatPaise(groups[i].total))];
    }
    return Ok(items), rows;
  }

  const GRANULARITIES := {"day", "week", "month"}

  function Granularity(text: string): string {
    var g := ToLower(TrimSpace(text));
    if g == "" then "day" else g
  }

  lemma GranularityIs(text: string)
    ensures TrimSpace(text) == "" ==> Granularity(text) == "day"
    ensures TrimSpace(text) != "" ==> Granularity(text) == ToLower(TrimSpace(text))
  {
    hide TrimSpace;
    assert |ToLower(TrimSpace(text))| == |TrimSpace(text)|;
  }

  /** The period report: one item per period, in order; truncate is DATE_TRUNC at the granularity. */
  method SpendByPeriod(ps: seq<Payment>, wallet: Result<int>, granularity: string, truncate: (string, int) -> int, from: Stamp, to: Stamp,
                       now: int) returns (r: Result<seq<Item<int>>>, ghost rows: seq<Row<int>>)
    ensures wallet.Err? ==> r == Err(wallet.error)
    ensures wallet.Ok? && (Granularity(granularity) !in GRANULARITIES || ParseDateRange(from, to, now).Err?) ==> r == Err(InvalidInput)
    ensures wallet.Ok? && Granularity(granularity) in GRANULARITIES && ParseDateRange(from, to, now).Ok? ==>
      && IsGrouping(Select(ps, wallet.value, ParseDateRange(from, to, now).value),
                    (p: Payment) => truncate(Granularity(granularity), p.at), rows)
      && Descending(rows, (row: Row<int>) => -row.key)
      && (if Fits(rows) then r.Ok? && |r.value| == |rows|
            && forall i | 0 <= i < |rows| :: r.value[i] == Item(rows[i].key, rows[i].count, Money.FormatPaise(rows[i].total))
          else r == Err(OutOfRange))
  {
    hide IsGrouping, Descending, Select, Granularity, ParseDateRange, Money.FormatPaise;
    rows := [];
    if wallet.Err? {
      return Err(wallet.error), rows;
    }
    var g := Granularity(granularity);
    if g !in GRANULARITIES {
      return Err(InvalidInput), rows;
    }
    var w := ParseDateRange(from, to, now);
    if w.Err? {
      return Err(InvalidInput), rows;
    }
    var groups := GroupBy(Select(ps, wallet.value, w.value), (p: Payment) => truncate(Granularity(granularity), p.at),
                          (row: Row<int>) => -row.key);
    rows := groups;
    var fit := AllFit(groups);
    if !fit {
      return Err(OutOfRange), rows;
    }
    var items := [];
    for i := 0 to |groups|
      invariant |items| == i
      invariant forall j | 0 <= j < i :: items[j] == Item(groups[j].key, groups[j].count, Money.FormatPaise(groups[j].total))
    {
      items := items + [Item(groups[i].key, groups[i].count, Money.FormatPaise(groups[i].total))];
    }
    return Ok(items), rows;
  }

  /** Payments without a category and payments of a category that is called uncategorized make two rows of one label. */
  lemma LabelsCanRepeat(a: Payment, b: Payment, rows: seq<Row<Option<string>>>)
    requires a.category == None && b.category == Some("uncategorized")
    requires IsGrouping([a, b], (p: Payment) => p.category, rows)
    ensures exists i, j :: 0 <= i < |rows| && 0 <= j < |rows| && i != j && Label(rows[i].key) == Label(rows[j].key)
  {
    var key := (p: Payment) => p.category;
    assert [a, b][0] in [a, b] && [a, b][1] in [a, b];
    var i :| 0 <= i < |rows| && rows[i].key == key(a);
    var j :| 0 <= j < |rows| && rows[j].key == key(b);
  }
}
