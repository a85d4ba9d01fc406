/** Usage of a subscription over a window of days (apps/gui/lab/quota-usage.tsx): the calendar axis, the
    totals a model, and the columns a day. Days are day numbers, counts are integers. */
module Usage {
  import opened Results

  /** A null model is one the source did not record. */
  datatype Row = Row(day: int, model: Option<string>, input: int, output: int, cachedInput: int, cacheWrite: int)

  datatype Kind = Input | Output | CachedInput | CacheWrite | All

  function Amount(r: Row, k: Kind): int {
    match k
    case Input => r.input
    case Output => r.output
    case CachedInput => r.cachedInput
    case CacheWrite => r.cacheWrite
    case All => r.input + r.output + r.cachedInput + r.cacheWrite
  }

  predicate NonNegative(rows: seq<Row>) {
    forall r | r in rows :: r.input >= 0 && r.output >= 0 && r.cachedInput >= 0 && r.cacheWrite >= 0
  }

  predicate Distinct<T(==)>(s: seq<T>) {
    forall i, j | 0 <= i < j < |s| :: s[i] != s[j]
  }

  /******* The axis *******/

  function DaysOf(rows: seq<Row>): set<int> {
    set r | r in rows :: r.day
  }

  /** `first` and every day after it up to `last`. */
  function Calendar(first: int, last: int): (days: seq<int>)
    ensures |days| == if first <= last then last - first + 1 else 0
    ensures forall i | 0 <= i < |days| :: days[i] == first + i
    decreases last - first
  {
    if first > last then [] else Calendar(first, last - 1) + [last]
  }

  ghost predicate Spans(oldest: int, newest: int, rows: seq<Row>) {
    oldest in DaysOf(rows) && newest in DaysOf(rows) && forall r | r in rows :: oldest <= r.day <= newest
  }

  /** The axis runs over every day from its start to its end: `today` or the newest day if that is later,
      back by `back` days (0 for all) but not before the oldest day. */
  ghost predicate IsAxis(days: seq<int>, rows: seq<Row>, today: Option<int>, back: nat) {
    && (rows == [] ==> days == [])
    && forall oldest, newest | Spans(oldest, newest, rows) ::
      days == Calendar(Start(oldest, End(newest, today), back), End(newest, today))
  }

  function End(newest: int, today: Option<int>): int {
    if today.Some? && today.value > newest then today.value else newest
  }

  function Start(oldest: int, last: int, back: nat): int {
    if back == 0 || last - (back - 1) <= oldest then oldest else last - (back - 1)
  }

  lemma OneSpan(rows: seq<Row>, a: int, b: int, c: int, d: int)
    requires Spans(a, b, rows) && Spans(c, d, rows)
    ensures a == c && b == d
  {
  }

  lemma {:induction false} Span(rows: seq<Row>) returns (oldest: int, newest: int)
    requires rows != []
    ensures Spans(oldest, newest, rows)
  {
    if |rows| == 1 {
      assert rows[0] in rows;
      return rows[0].day, rows[0].day;
    }
    var front, last := rows[..|rows| - 1], rows[|rows| - 1];
    oldest, newest := Span(front);
    assert last in rows && forall r :: r in rows <==> r in front || r == last;
    var o, n :| o in front && o.day == oldest && n in front && n.day == newest;
    assert o in rows && n in rows;
    oldest := if last.day < oldest then last.day else oldest;
    newest := if last.day > newest then last.day else newest;
  }

  method DayAxis(rows: seq<Row>, today: Option<int>, back: nat) returns (days: seq<int>)
    ensures IsAxis(days, rows, today, back)
  {
    if rows == [] { return []; }
    var oldest, newest := rows[0].day, rows[0].day;
    for i := 1 to |rows|
      invariant forall r | r in rows[..i] :: oldest <= r.day <= newest
      invariant oldest in DaysOf(rows) && newest in DaysOf(rows)
    {
      assert rows[i] in rows;
      if rows[i].day < oldest { oldest := rows[i].day; }
      if rows[i].day > newest { newest := rows[i].day; }
    }
    assert rows[..|rows|] == rows;
    assert Spans(oldest, newest, rows);
    forall o, n | Spans(o, n, rows)
      ensures o == oldest && n == newest
    {
      OneSpan(rows, o, n, oldest, newest);
    }
    var last := End(newest, today);
    var first := Start(oldest, last, back);
    days := [];
    for d := first to last + 1
      invariant days == Calendar(first, d - 1)
    {
      days := days + [d];
    }
  }

  lemma CalendarSuffix(a: int, b: int, last: int)
    requires a <= b <= last + 1
    ensures var long, short := Calendar(a, last), Calendar(b, last);
      |short| <= |long| && short == long[|long| - |short|..]
  {
  }

  /** A shorter window is the tail of a longer one, and never empty or longer than asked for. */
  lemma ShorterIsSuffix(rows: seq<Row>, today: Option<int>, a: seq<int>, short: nat, b: seq<int>, long: nat)
    requires IsAxis(a, rows, today, short) && IsAxis(b, rows, today, long)
    requires long == 0 || 0 < short <= long
    ensures |a| <= |b| && a == b[|b| - |a|..]
    ensures rows != [] ==> a != [] && (short > 0 ==> |a| <= short)
  {
    if rows != [] {
      var oldest, newest := Span(rows);
      var last := End(newest, today);
      CalendarSuffix(Start(oldest, last, long), Start(oldest, last, short), last);
    }
  }

  /** No window skips a day, and the longest one has every day there is. */
  lemma AxisIsGapFree(rows: seq<Row>, today: Option<int>, days: seq<int>, back: nat)
    requires IsAxis(days, rows, today, back)
    ensures forall i | 0 < i < |days| :: days[i] == days[i - 1] + 1
    ensures back == 0 ==> forall r | r in rows :: r.day in days
  {
    if rows != [] {
      var oldest, newest := Span(rows);
      if back == 0 {
        forall r | r in rows
          ensures r.day in days
        {
          assert days[r.day - oldest] == r.day;
        }
      }
    }
  }

  /******* Sums *******/

  function SetOf(days: seq<int>): set<int> {
    set d | d in days
  }

  /** The rows of the window, whatever their model. */
  function Direct(rows: seq<Row>, k: Kind, days: set<int>): int {
    if rows == [] then 0
    else Direct(rows[..|rows| - 1], k, days) + if rows[|rows| - 1].day in days then Amount(rows[|rows| - 1], k) else 0
  }

  /** One model's rows of the window. */
  function OfModel(rows: seq<Row>, k: Kind, days: set<int>, m: Option<string>): int {
    if rows == [] then 0
    else
      var r := rows[|rows| - 1];
      OfModel(rows[..|rows| - 1], k, days, m) + if r.day in days && r.model == m then Amount(r, k) else 0
  }

  /** What a template literal makes of a model. */
  function Spelled(m: Option<string>): string {
    if m.Some? then m.value else "null"
  }

  /** The rows of the window whose model is spelled so. */
  function OfSpelling(rows: seq<Row>, k: Kind, days: set<int>, key: string): int {
    if rows == [] then 0
    else
      var r := rows[|rows| - 1];
      OfSpelling(rows[..|rows| - 1], k, days, key) + if r.day in days && Spelled(r.model) == key then Amount(r, k) else 0
  }

  /** The model worked on a day of the window. */
  ghost predicate Ran(rows: seq<Row>, days: set<int>, m: Option<string>) {
    exists r :: r in rows && r.day in days && r.model == m && Amount(r, All) > 0
  }

  function RanDays(rows: seq<Row>, days: set<int>, m: Option<string>): set<int> {
    set r | r in rows && r.day in days && r.model == m && Amount(r, All) > 0 :: r.day
  }

  lemma {:induction false} SumNonNegative(rows: seq<Row>, k: Kind, days: set<int>, m: Option<string>)
    requires NonNegative(rows)
    ensures OfModel(rows, k, days, m) >= 0
  {
    if rows != [] {
      SumNonNegative(rows[..|rows| - 1], k, days, m);
      assert rows[|rows| - 1] in rows;
    }
  }

  /** A model has a positive total exactly if it ran, and else nothing of any kind. */
  lemma {:induction false} RanIffPositive(rows: seq<Row>, k: Kind, days: set<int>, m: Option<string>)
    requires NonNegative(rows)
    ensures Ran(rows, days, m) <==> OfModel(rows, All, days, m) > 0
    ensures !Ran(rows, days, m) ==> OfModel(rows, k, days, m) == 0
  {
    if rows != [] {
      var front, last := rows[..|rows| - 1], rows[|rows| - 1];
      assert last in rows && forall r :: r in rows <==> r in front || r == last;
      RanIffPositive(front, k, days, m);
      SumNonNegative(front, All, days, m);
      assert Ran(front, days, m) ==> Ran(rows, days, m);
    }
  }

  /******* The table *******/

  datatype Sums = Sums(input: int, output: int, cachedInput: int, cacheWrite: int)

  const ZERO := Sums(0, 0, 0, 0)

  function Total(s: Sums): int {
    s.input + s.output + s.cachedInput + s.cacheWrite
  }

  function Part(s: Sums, k: Kind): int {
    match k
    case Input => s.input
    case Output => s.output
    case CachedInput => s.cachedInput
    case CacheWrite => s.cacheWrite
    case All => Total(s)
  }

  /** A line of the table; a rate or reuse of None is not a number. */
  datatype Line = Line(model: Option<string>, sums: Sums, rate: Option<real>, reuse: Option<real>, days: nat)

  function LineOf(m: Option<string>, s: Sums, cacheKnown: bool, days: nat): Line {
    var went := s.input + s.cachedInput + s.cacheWrite;
    Line(m, s,
         if cacheKnown && went > 0 then Some(s.cachedInput as real / went as real) else None,
         if cacheKnown && s.cacheWrite > 0 then Some(s.cachedInput as real / s.cacheWrite as real) else None,
         days)
  }

  function SumsOf(rows: seq<Row>, days: set<int>, m: Option<string>): Sums {
    Sums(OfModel(rows, Input, days, m), OfModel(rows, Output, days, m),
         OfModel(rows, CachedInput, days, m), OfModel(rows, CacheWrite, days, m))
  }

  lemma {:induction false} PartOfModel(rows: seq<Row>, days: set<int>, m: Option<string>, k: Kind)
    ensures Part(SumsOf(rows, days, m), k) == OfModel(rows, k, days, m)
  {
    if rows != [] {
      PartOfModel(rows[..|rows| - 1], days, m, k);
    }
  }

  function Models(table: seq<Line>): seq<Option<string>> {
    seq(|table|, i requires 0 <= i < |table| => table[i].model)
  }

  predicate Descending(table: seq<Line>) {
    forall i, j | 0 <= i < j < |table| :: Total(table[i].sums) >= Total(table[j].sums)
  }

  /** One line for each model that ran, with its sums, largest first. */
  ghost predicate IsTable(table: seq<Line>, rows: seq<Row>, days: set<int>, cacheKnown: bool) {
    && Distinct(Models(table)) && Descending(table)
    && (forall m :: m in Models(table) <==> Ran(rows, days, m))
    && forall a | a in table :: a == LineOf(a.model, SumsOf(rows, days, a.model), cacheKnown, |RanDays(rows, days, a.model)|)
  }

  /** The models met so far, in the order met, their sums and the days they ran. */
  ghost predicate Gathered(order: seq<Option<string>>, sums: map<Option<string>, Sums>,
                           ran: map<Option<string>, set<int>>, rows: seq<Row>, days: set<int>) {
    && Distinct(order) && (forall m :: m in order <==> m in sums) && ran.Keys <= sums.Keys
    && Summed(sums, rows, days) && Noted(ran, rows, days)
  }

  ghost predicate Summed(sums: map<Option<string>, Sums>, rows: seq<Row>, days: set<int>) {
    && (forall r | r in rows && r.day in days :: r.model in sums)
    && forall m :: Held(sums, m) == SumsOf(rows, days, m)
  }

  ghost predicate Noted(ran: map<Option<string>, set<int>>, rows: seq<Row>, days: set<int>) {
    && (forall m :: (if m in ran then ran[m] else {}) == RanDays(rows, days, m))
    && forall m | m in ran :: ran[m] != {}
  }

  function Held(sums: map<Option<string>, Sums>, m: Option<string>): Sums {
    if m in sums then sums[m] else ZERO
  }

  function Plus(s: Sums, r: Row): Sums {
    Sums(s.input + r.input, s.output + r.output, s.cachedInput + r.cachedInput, s.cacheWrite + r.cacheWrite)
  }

  lemma SumsStep(rows: seq<Row>, r: Row, days: set<int>, m: Option<string>)
    ensures SumsOf(rows + [r], days, m)
      == if r.day in days && r.model == m then Plus(SumsOf(rows, days, m), r) else SumsOf(rows, days, m)
    ensures RanDays(rows + [r], days, m)
      == RanDays(rows, days, m) + if r.day in days && r.model == m && Amount(r, All) > 0 then {r.day} else {}
  {
    assert (rows + [r])[..|rows|] == rows;
    assert forall x :: x in rows + [r] <==> x in rows || x == r;
  }

  lemma GatheredOut(order: seq<Option<string>>, sums: map<Option<string>, Sums>, ran: map<Option<string>, set<int>>,
                    rows: seq<Row>, r: Row, days: set<int>)
    requires Gathered(order, sums, ran, rows, days) && r.day !in days
    ensures Gathered(order, sums, ran, rows + [r], days)
  {
    forall m ensures SumsOf(rows + [r], days, m) == SumsOf(rows, days, m) && RanDays(rows + [r], days, m) == RanDays(rows, days, m) {
      SumsStep(rows, r, days, m);
    }
  }

  lemma SummedIn(sums: map<Option<string>, Sums>, rows: seq<Row>, r: Row, days: set<int>)
    requires Summed(sums, rows, days) && r.day in days
    ensures Summed(sums[r.model := Plus(Held(sums, r.model), r)], rows + [r], days)
  {
    forall m
      ensures SumsOf(rows + [r], days, m) == if r.model == m then Plus(SumsOf(rows, days, m), r) else SumsOf(rows, days, m)
    {
      SumsStep(rows, r, days, m);
    }
  }

  lemma NotedIn(ran: map<Option<string>, set<int>>, rows: seq<Row>, r: Row, days: set<int>)
    requires Noted(ran, rows, days) && r.day in days
    ensures var seen := if r.model in ran then ran[r.model] else {};
      Noted(if Amount(r, All) > 0 then ran[r.model := seen + {r.day}] else ran, rows + [r], days)
  {
    forall m
      ensures RanDays(rows + [r], days, m)
        == RanDays(rows, days, m) + if r.model == m && Amount(r, All) > 0 then {r.day} else {}
    {
      SumsStep(rows, r, days, m);
    }
  }

  lemma OrderIn(order: seq<Option<string>>, sums: map<Option<string>, Sums>, m: Option<string>, s: Sums)
    requires Distinct(order) && forall x :: x in order <==> x in sums
    ensures var more := if m in sums then order else order + [m];
      Distinct(more) && forall x :: x in more <==> x in sums[m := s]
  {
  }

  /** A line into a table in order, after those of the same total. */
  function InsertLine(a: Line, table: seq<Line>): seq<Line> {
    if table == [] then [a]
    else if Total(table[|table| - 1].sums) < Total(a.sums)
    then InsertLine(a, table[..|table| - 1]) + [table[|table| - 1]]
    else table + [a]
  }

  lemma {:induction false} InsertMember(a: Line, table: seq<Line>, x: Line)
    ensures x in InsertLine(a, table) <==> x == a || x in table
  {
    if table != [] && Total(table[|table| - 1].sums) < Total(a.sums) {
      InsertMember(a, table[..|table| - 1], x);
      assert table == table[..|table| - 1] + [table[|table| - 1]];
    }
  }

  lemma {:induction false} InsertSorts(a: Line, table: seq<Line>)
    requires Descending(table)
    ensures Descending(InsertLine(a, table))
  {
    if table != [] && Total(table[|table| - 1].sums) < Total(a.sums) {
      var front, last := table[..|table| - 1], table[|table| - 1];
      InsertSorts(a, front);
      forall x | x in InsertLine(a, front)
        ensures Total(x.sums) >= Total(last.sums)
      {
        InsertMember(a, front, x);
      }
    }
  }

  lemma {:induction false} InsertDistinct(a: Line, table: seq<Line>)
    requires Distinct(Models(table)) && forall x | x in table :: x.model != a.model
    ensures Distinct(Models(InsertLine(a, table)))
  {
    if table != [] && Total(table[|table| - 1].sums) < Total(a.sums) {
      var front, last := table[..|table| - 1], table[|table| - 1];
      assert Models(front) == Models(table)[..|front|];
      InsertDistinct(a, front);
      var t := InsertLine(a, front);
      forall i | 0 <= i < |t|
        ensures t[i].model != last.model
      {
        InsertMember(a, front, t[i]);
        if t[i] in front {
          var j :| 0 <= j < |front| && front[j] == t[i];
          assert Models(table)[j] != Models(table)[|front|];
        }
      }
      var whole := t + [last];
      assert forall i | 0 <= i < |t| :: Models(whole)[i] == Models(t)[i];
    } else {
      assert forall i | 0 <= i < |table| :: Models(table + [a])[i] == Models(table)[i];
    }
  }

  /** The lines so far are those of the first models met. */
  ghost predicate Lined(table: seq<Line>, done: seq<Option<string>>, sums: map<Option<string>, Sums>,
                        ran: map<Option<string>, set<int>>, cacheKnown: bool) {
    && Distinct(Models(table)) && Descending(table)
    && (forall a | a in table :: a.model in done && a.model in sums && a.model in ran
         && a == LineOf(a.model, sums[a.model], cacheKnown, |ran[a.model]|))
    && (forall m | m in done && m in sums && m in ran :: LineOf(m, sums[m], cacheKnown, |ran[m]|) in table)
  }

  lemma LinedOneMore(table: seq<Line>, done: seq<Option<string>>, m: Option<string>, sums: map<Option<string>, Sums>,
                     ran: map<Option<string>, set<int>>, cacheKnown: bool)
    requires Lined(table, done, sums, ran, cacheKnown) && m !in done && m in sums && m in ran
    ensures Lined(InsertLine(LineOf(m, sums[m], cacheKnown, |ran[m]|), table), done + [m], sums, ran, cacheKnown)
  {
    var a := LineOf(m, sums[m], cacheKnown, |ran[m]|);
    InsertSorts(a, table);
    InsertDistinct(a, table);
    forall x
      ensures x in InsertLine(a, table) <==> x == a || x in table
    {
      InsertMember(a, table, x);
    }
  }

  lemma LinedIsTable(table: seq<Line>, order: seq<Option<string>>, sums: map<Option<string>, Sums>,
                     ran: map<Option<string>, set<int>>, rows: seq<Row>, days: set<int>, cacheKnown: bool)
    requires Gathered(order, sums, ran, rows, days) && Lined(table, order, sums, ran, cacheKnown)
    ensures IsTable(table, rows, days, cacheKnown)
  {
    forall m
      ensures m in Models(table) <==> Ran(rows, days, m)
    {
      assert RanDays(rows, days, m) != {} <==> Ran(rows, days, m) by {
        if Ran(rows, days, m) {
          var r :| r in rows && r.day in days && r.model == m && Amount(r, All) > 0;
          assert r.day in RanDays(rows, days, m);
        }
      }
      if m in ran {
        var a := LineOf(m, sums[m], cacheKnown, |ran[m]|);
        var i :| 0 <= i < |table| && table[i] == a;
        assert Models(table)[i] == m;
      }
      if m in Models(table) {
        var i :| 0 <= i < |table| && Models(table)[i] == m;
        assert table[i] in table;
      }
    }
  }

  method Aggregate(rows: seq<Row>, days: seq<int>, cacheKnown: bool) returns (table: seq<Line>)
    ensures IsTable(table, rows, SetOf(days), cacheKnown)
  {
    var inWindow := SetOf(days);
    var order: seq<Option<string>> := [];
    var sums: map<Option<string>, Sums> := map[];
    var ran: map<Option<string>, set<int>> := map[];
    for i := 0 to |rows|
      invariant Gathered(order, sums, ran, rows[..i], inWindow)
    {
      var r := rows[i];
      assert rows[..i + 1] == rows[..i] + [r];
      if r.day !in inWindow {
        GatheredOut(order, sums, ran, rows[..i], r, inWindow);
        continue;
      }
      SummedIn(sums, rows[..i], r, inWindow);
      NotedIn(ran, rows[..i], r, inWindow);
      OrderIn(order, sums, r.model, Plus(Held(sums, r.model), r));
      var got := if r.model in sums then sums[r.model] else ZERO;
      if r.model !in sums { order := order + [r.model]; }
      sums := sums[r.model := Plus(got, r)];
      if Amount(r, All) > 0 {
        ran := ran[r.model := (if r.model in ran then ran[r.model] else {}) + {r.day}];
      }
    }
    assert rows[..|rows|] == rows;
    table := [];
    for i := 0 to |order|
      invariant Lined(table, order[..i], sums, ran, cacheKnown)
    {
      var m := order[i];
      assert order[..i + 1] == order[..i] + [m];
      if m !in ran { continue; }
      LinedOneMore(table, order[..i], m, sums, ran, cacheKnown);
      table := InsertLine(LineOf(m, sums[m], cacheKnown, |ran[m]|), table);
    }
    assert order[..|order|] == order;
    LinedIsTable(table, order, sums, ran, rows, inWindow, cacheKnown);
  }

  /** Where it is a number, the rate is the share of cache reads in what went in. */
  lemma RateIsShare(rows: seq<Row>, days: set<int>, table: seq<Line>, cacheKnown: bool, a: Line)
    requires NonNegative(rows) && IsTable(table, rows, days, cacheKnown) && a in table
    ensures a.rate.Some? ==> 0.0 <= a.rate.value <= 1.0
    ensures a.rate.None? <==> !cacheKnown || Total(a.sums) == a.sums.output
  {
    SumNonNegative(rows, Input, days, a.model);
    SumNonNegative(rows, CachedInput, days, a.model);
    SumNonNegative(rows, CacheWrite, days, a.model);
    var went := a.sums.input + a.sums.cachedInput + a.sums.cacheWrite;
    if went > 0 {
      Quotient(a.sums.cachedInput as real, went as real);
    }
  }

  lemma Quotient(x: real, y: real)
    requires 0.0 <= x <= y && y > 0.0
    ensures 0.0 <= x / y <= 1.0
  {
    var q := x / y;
    assert q * y == x;
    if q > 1.0 {
      Bigger(q, 1.0, y);
    } else if q < 0.0 {
      Bigger(0.0, q, y);
    }
  }

  lemma Bigger(a: real, b: real, y: real)
    requires a > b && y > 0.0
    ensures a * y > b * y
  {
    assert (a - b) * y > 0.0;
  }

  /******* The sum under the table *******/

  function SumOver(models: seq<Option<string>>, rows: seq<Row>, k: Kind, days: set<int>): int {
    if models == [] then 0
    else SumOver(models[..|models| - 1], rows, k, days) + OfModel(rows, k, days, models[|models| - 1])
  }

  /** Adding one row adds it to the sum over distinct models once, if its model is one of them. */
  lemma {:induction false} SumOverStep(models: seq<Option<string>>, rows: seq<Row>, r: Row, k: Kind, days: set<int>)
    requires Distinct(models)
    ensures SumOver(models, rows + [r], k, days)
      == SumOver(models, rows, k, days) + if r.day in days && r.model in models then Amount(r, k) else 0
  {
    if models != [] {
      var front := models[..|models| - 1];
      SumOverStep(front, rows, r, k, days);
      assert (rows + [r])[..|rows|] == rows;
      assert models == front + [models[|models| - 1]];
    }
  }

  lemma {:induction false} SumOverEmpty(models: seq<Option<string>>, k: Kind, days: set<int>)
    ensures SumOver(models, [], k, days) == 0
  {
    if models != [] {
      SumOverEmpty(models[..|models| - 1], k, days);
    }
  }

  /** The rows of the window of the given models. */
  function Within(rows: seq<Row>, k: Kind, days: set<int>, models: seq<Option<string>>): int {
    if rows == [] then 0
    else
      var r := rows[|rows| - 1];
      Within(rows[..|rows| - 1], k, days, models) + if r.day in days && r.model in models then Amount(r, k) else 0
  }

  lemma {:induction false} SumOverIsWithin(models: seq<Option<string>>, rows: seq<Row>, k: Kind, days: set<int>)
    requires Distinct(models)
    ensures SumOver(models, rows, k, days) == Within(rows, k, days, models)
  {
    if rows == [] {
      SumOverEmpty(models, k, days);
    } else {
      var front := rows[..|rows| - 1];
      SumOverIsWithin(models, front, k, days);
      SumOverStep(models, front, rows[|rows| - 1], k, days);
      assert rows == front + [rows[|rows| - 1]];
    }
  }

  lemma {:induction false} WithinIsDirect(rows: seq<Row>, k: Kind, days: set<int>, models: seq<Option<string>>)
    requires NonNegative(rows) && forall r | r in rows && r.day in days :: r.model in models || Amount(r, All) == 0
    ensures Within(rows, k, days, models) == Direct(rows, k, days)
  {
    if rows != [] {
      var front, last := rows[..|rows| - 1], rows[|rows| - 1];
      assert last in rows;
      WithinIsDirect(front, k, days, models);
    }
  }

  lemma SumOverIsDirect(rows: seq<Row>, days: set<int>, models: seq<Option<string>>, k: Kind)
    requires NonNegative(rows) && Distinct(models) && forall m :: m in models <==> Ran(rows, days, m)
    ensures SumOver(models, rows, k, days) == Direct(rows, k, days)
  {
    forall r | r in rows && r.day in days
      ensures r.model in models || Amount(r, All) == 0
    {
      if Amount(r, All) > 0 {
        assert Ran(rows, days, r.model);
      }
    }
    SumOverIsWithin(models, rows, k, days);
    WithinIsDirect(rows, k, days, models);
  }

  /** `sum`: the table's parts added up. */
  function TableSum(table: seq<Line>, k: Kind): int {
    if table == [] then 0 else TableSum(table[..|table| - 1], k) + Part(table[|table| - 1].sums, k)
  }

  lemma ModelsMore(table: seq<Line>, a: Line)
    ensures Models(table + [a]) == Models(table) + [a.model]
  {
  }

  lemma SumOverMore(models: seq<Option<string>>, m: Option<string>, rows: seq<Row>, k: Kind, days: set<int>)
    ensures SumOver(models + [m], rows, k, days) == SumOver(models, rows, k, days) + OfModel(rows, k, days, m)
  {
    assert (models + [m])[..|models|] == models;
  }

  lemma TableSumMore(table: seq<Line>, a: Line, k: Kind)
    ensures TableSum(table + [a], k) == TableSum(table, k) + Part(a.sums, k)
  {
    assert (table + [a])[..|table|] == table;
  }

  lemma {:induction false} TableSumOver(table: seq<Line>, rows: seq<Row>, days: set<int>, k: Kind)
    requires forall a | a in table :: Part(a.sums, k) == OfModel(rows, k, days, a.model)
    ensures TableSum(table, k) == SumOver(Models(table), rows, k, days)
  {
    if table != [] {
      var front, last := table[..|table| - 1], table[|table| - 1];
      TableSumOver(front, rows, days, k);
      assert table == front + [last];
      TableSumMore(front, last, k);
      ModelsMore(front, last);
      SumOverMore(Models(front), last.model, rows, k, days);
    }
  }

  /** The table adds up to the rows of the window, kind by kind. */
  lemma TableAddsUp(table: seq<Line>, rows: seq<Row>, days: set<int>, cacheKnown: bool, k: Kind)
    requires NonNegative(rows) && IsTable(table, rows, days, cacheKnown)
    ensures TableSum(table, k) == Direct(rows, k, days)
  {
    forall a | a in table
      ensures Part(a.sums, k) == OfModel(rows, k, days, a.model)
    {
      PartOfModel(rows, days, a.model, k);
    }
    TableSumOver(table, rows, days, k);
    SumOverIsDirect(rows, days, Models(table), k);
  }

  /******* The columns *******/

  type Cells = map<(int, string), int>

  function At(cells: Cells, day: int, m: Option<string>): int {
    if (day, Spelled(m)) in cells then cells[(day, Spelled(m))] else 0
  }

  /** Every cell holds its day's rows of every model that is spelled so. */
  ghost predicate AreCells(cells: Cells, rows: seq<Row>) {
    forall d: int, m: Option<string> :: At(cells, d, m) == OfSpelling(rows, All, {d}, Spelled(m))
  }

  method CellsOf(rows: seq<Row>) returns (cells: Cells)
    ensures AreCells(cells, rows)
  {
    cells := map[];
    for i := 0 to |rows|
      invariant AreCells(cells, rows[..i])
    {
      var r := rows[i];
      ghost var before := cells;
      cells := cells[(r.day, Spelled(r.model)) := At(cells, r.day, r.model) + Amount(r, All)];
      forall d: int, m: Option<string>
        ensures At(cells, d, m) == OfSpelling(rows[..i + 1], All, {d}, Spelled(m))
      {
        assert rows[..i + 1][..i] == rows[..i];
        assert At(before, d, m) == OfSpelling(rows[..i], All, {d}, Spelled(m));
        assert At(before, r.day, r.model) == OfSpelling(rows[..i], All, {r.day}, Spelled(r.model));
      }
    }
    assert rows[..|rows|] == rows;
  }

  /** One day's column: its cells of the models in the stack. */
  function Column(rows: seq<Row>, d: int, models: seq<Option<string>>): int {
    if models == [] then 0
    else Column(rows, d, models[..|models| - 1]) + OfSpelling(rows, All, {d}, Spelled(models[|models| - 1]))
  }

  function Columns(rows: seq<Row>, days: seq<int>, models: seq<Option<string>>): seq<int> {
    seq(|days|, i requires 0 <= i < |days| => Column(rows, days[i], models))
  }

  method Totals(cells: Cells, rows: seq<Row>, days: seq<int>, models: seq<Option<string>>) returns (totals: seq<int>)
    requires AreCells(cells, rows)
    ensures totals == Columns(rows, days, models)
  {
    totals := [];
    for i := 0 to |days|
      invariant |totals| == i && forall k | 0 <= k < i :: totals[k] == Column(rows, days[k], models)
    {
      var sum := 0;
      for j := 0 to |models|
        invariant sum == Column(rows, days[i], models[..j])
      {
        assert models[..j + 1][..j] == models[..j];
        assert At(cells, days[i], models[j]) == OfSpelling(rows, All, {days[i]}, Spelled(models[j]));
        sum := sum + At(cells, days[i], models[j]);
      }
      assert models[..|models|] == models;
      totals := totals + [sum];
    }
  }

  function Sum(s: seq<int>): int {
    if s == [] then 0 else Sum(s[..|s| - 1]) + s[|s| - 1]
  }

  /** Summing the spellings instead of the models. */
  function SpelledOver(models: seq<Option<string>>, rows: seq<Row>, days: set<int>): int {
    if models == [] then 0
    else SpelledOver(models[..|models| - 1], rows, days) + OfSpelling(rows, All, days, Spelled(models[|models| - 1]))
  }

  lemma {:induction false} SpellingByDay(rows: seq<Row>, days: set<int>, d: int, key: string)
    requires d !in days
    ensures OfSpelling(rows, All, days + {d}, key) == OfSpelling(rows, All, days, key) + OfSpelling(rows, All, {d}, key)
  {
    if rows != [] {
      SpellingByDay(rows[..|rows| - 1], days, d, key);
    }
  }

  lemma {:induction false} ColumnByDay(rows: seq<Row>, days: set<int>, d: int, models: seq<Option<string>>)
    requires d !in days
    ensures SpelledOver(models, rows, days + {d}) == SpelledOver(models, rows, days) + Column(rows, d, models)
  {
    if models != [] {
      ColumnByDay(rows, days, d, models[..|models| - 1]);
      SpellingByDay(rows, days, d, Spelled(models[|models| - 1]));
    }
  }

  lemma {:induction false} NoDays(rows: seq<Row>, key: string)
    ensures OfSpelling(rows, All, {}, key) == 0
  {
    if rows != [] {
      NoDays(rows[..|rows| - 1], key);
    }
  }

  lemma {:induction false} NoDaysOver(models: seq<Option<string>>, rows: seq<Row>)
    ensures SpelledOver(models, rows, {}) == 0
  {
    if models != [] {
      NoDaysOver(models[..|models| - 1], rows);
      NoDays(rows, Spelled(models[|models| - 1]));
    }
  }

  lemma SumColumns(rows: seq<Row>, days: seq<int>, models: seq<Option<string>>, d: int)
    ensures Sum(Columns(rows, days + [d], models)) == Sum(Columns(rows, days, models)) + Column(rows, d, models)
  {
    var columns := Columns(rows, days + [d], models);
    assert columns[..|columns| - 1] == Columns(rows, days, models);
  }

  lemma SetOfMore(days: seq<int>, d: int)
    ensures SetOf(days + [d]) == SetOf(days) + {d}
  {
  }

  /** Adding the columns up is summing the spellings over the window. */
  lemma {:induction false} ColumnsBySpelling(rows: seq<Row>, days: seq<int>, models: seq<Option<string>>)
    requires Distinct(days)
    ensures Sum(Columns(rows, days, models)) == SpelledOver(models, rows, SetOf(days))
  {
    if days == [] {
      assert SetOf(days) == {} && Columns(rows, days, models) == [];
      NoDaysOver(models, rows);
    } else {
      var front, last := days[..|days| - 1], days[|days| - 1];
      ColumnsBySpelling(rows, front, models);
      SumColumns(rows, front, models, last);
      SetOfMore(front, last);
      assert days == front + [last] && last !in front;
      ColumnByDay(rows, SetOf(front), last, models);
    }
  }

  const UNNAMED: Option<string> := None
  const NULL := Some("null")

  /** A spelling is one model's, but for that of the unnamed model and of one that is called so. */
  lemma {:induction false} SpellingOfModel(rows: seq<Row>, days: set<int>, m: Option<string>)
    ensures Spelled(m) == "null" ==>
      OfSpelling(rows, All, days, Spelled(m)) == OfModel(rows, All, days, UNNAMED) + OfModel(rows, All, days, NULL)
    ensures Spelled(m) != "null" ==> OfSpelling(rows, All, days, Spelled(m)) == OfModel(rows, All, days, m)
  {
    if rows != [] {
      SpellingOfModel(rows[..|rows| - 1], days, m);
    }
  }

  /** How often the sum over spellings counts rows of one of the two models for the other. */
  lemma {:induction false} SpelledOverCounts(models: seq<Option<string>>, rows: seq<Row>, days: set<int>)
    requires Distinct(models)
    ensures SpelledOver(models, rows, days) == SumOver(models, rows, All, days)
      + (if UNNAMED in models then OfModel(rows, All, days, NULL) else 0)
      + (if NULL in models then OfModel(rows, All, days, UNNAMED) else 0)
  {
    if models != [] {
      var front, last := models[..|models| - 1], models[|models| - 1];
      SpelledOverCounts(front, rows, days);
      SpellingOfModel(rows, days, last);
      assert models == front + [last];
    }
  }

  /** The columns add up to the rows of the window, and so to the table, if and only if not both an
      unnamed model and a model named "null" ran in it. */
  lemma ColumnsAddUp(rows: seq<Row>, days: seq<int>, table: seq<Line>, cacheKnown: bool)
    requires NonNegative(rows) && Distinct(days) && IsTable(table, rows, SetOf(days), cacheKnown)
    ensures Sum(Columns(rows, days, Models(table))) == Direct(rows, All, SetOf(days))
      <==> !(Ran(rows, SetOf(days), UNNAMED) && Ran(rows, SetOf(days), NULL))
  {
    var models := Models(table);
    ColumnsBySpelling(rows, days, models);
    SpelledOverCounts(models, rows, SetOf(days));
    SumOverIsDirect(rows, SetOf(days), models, All);
    RanIffPositive(rows, All, SetOf(days), UNNAMED);
    RanIffPositive(rows, All, SetOf(days), NULL);
  }

  /** A row of each counts twice in its day's column. */
  lemma NullCountsTwice(day: int, n: nat, m: nat)
    requires n > 0 && m > 0
    ensures var rows := [Row(day, None, n, 0, 0, 0), Row(day, Some("null"), m, 0, 0, 0)];
      && Ran(rows, {day}, UNNAMED) && Ran(rows, {day}, NULL)
      && Sum(Columns(rows, [day], [UNNAMED, NULL])) == 2 * (n + m) && Direct(rows, All, {day}) == n + m
  {
    var a, b := Row(day, None, n, 0, 0, 0), Row(day, Some("null"), m, 0, 0, 0);
    var rows := [a, b];
    assert SetOf([day]) == {day};
    ColumnsBySpelling(rows, [day], [UNNAMED, NULL]);
    SpelledOverCounts([UNNAMED, NULL], rows, {day});
    assert rows[..1] == [a] && [a][..0] == [];
    assert a in rows && b in rows;
    assert OfModel([a], All, {day}, UNNAMED) == n && OfModel([a], All, {day}, NULL) == 0;
    assert Direct([a], All, {day}) == n;
    assert Ran(rows, {day}, UNNAMED) && Ran(rows, {day}, NULL);
    SumOverIsDirect(rows, {day}, [UNNAMED, NULL], All);
  }
}
