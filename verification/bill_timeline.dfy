/** The 12-month projection of bill totals (src/components/BillTimeline.tsx,
    the month list and the `monthlyTotals` computation). */
module BillTimeline {
  import opened Wrappers
  import opened BillTypes

  /** A calendar month: full year and zero-based month. */
  datatype YearMonth = YearMonth(year: int, month0: int)

  predicate ValidMonth(m: YearMonth) {
    0 <= m.month0 < 12
  }

  /** The month's position on a single count of months (year 0, January = 0). */
  function MonthNumber(m: YearMonth): int {
    m.year * 12 + m.month0
  }

  /** The calendar month a decoded bill date falls in. */
  function MonthOf(d: CalendarDate): YearMonth {
    YearMonth(d.year, d.month0)
  }

  /** How many months the projection covers. */
  const WindowLength: nat := 12

  /** `date.setMonth(date.getMonth() + k)`: k months later, the year rolling
      over (or back) as often as needed. */
  function AddMonths(start: YearMonth, k: int): (m: YearMonth)
    ensures ValidMonth(m)
    ensures MonthNumber(m) == MonthNumber(start) + k
    ensures ValidMonth(start) && 0 <= start.month0 + k < 12 ==>
      m == YearMonth(start.year, start.month0 + k)
    ensures ValidMonth(start) && 12 <= start.month0 + k < 24 ==>
      m == YearMonth(start.year + 1, start.month0 + k - 12)
  {
    var n := MonthNumber(start) + k;
    YearMonth(n / 12, n % 12)
  }

  /** Two valid months are the same month exactly when their month numbers agree. */
  lemma MonthNumberInjective(a: YearMonth, b: YearMonth)
    requires ValidMonth(a) && ValidMonth(b)
    ensures MonthNumber(a) == MonthNumber(b) <==> a == b
  {
  }

  /** The 12 target months: the current month and the 11 after it. */
  function TargetMonths(now: YearMonth): (ms: seq<YearMonth>)
    ensures |ms| == WindowLength
    ensures forall i :: 0 <= i < |ms| ==>
      ValidMonth(ms[i]) && MonthNumber(ms[i]) == MonthNumber(now) + i
  {
    seq(WindowLength, i => AddMonths(now, i))
  }

  /** `monthsDiff`: the signed number of months from the bill's month to the
      target month; `None` stands for the NaN an unparseable bill date gives. */
  function MonthsDiff(target: YearMonth, date: Option<CalendarDate>): (diff: Option<int>)
    ensures diff.Some? <==> date.Some?
    ensures date.Some? ==> diff.value == MonthNumber(target) - MonthNumber(MonthOf(date.value))
  {
    match date
    case None => None
    case Some(d) => Some((target.year - d.year) * 12 + (target.month0 - d.month0))
  }

  /** What one bill adds to the total of the target month. A One-time bill
      counts in its own month only. A recurring bill counts nothing before its
      anchor month; from there on Weekly counts four times, Fortnightly twice,
      Monthly once, Quarterly every third month and Yearly every twelfth.
      Any other frequency text counts nothing. An unparseable date gives a NaN
      difference, which is not below zero and not a multiple of anything. */
  function Contribution(bill: Bill, target: YearMonth, parse: DateParser): (c: real)
    ensures bill.data.amount >= 0.0 ==> c >= 0.0
    ensures c == 0.0 || c == bill.data.amount || c == 2.0 * bill.data.amount || c == 4.0 * bill.data.amount
  {
    var amount := bill.data.amount;
    var date := parse(bill.data.date);
    var freq := ParseFrequency(bill.data.frequency);
    if freq == OneTime then
      if date.Some? && date.value.month0 == target.month0 && date.value.year == target.year
      then amount else 0.0
    else
      var diff := MonthsDiff(target, date);
      if diff.Some? && diff.value < 0 then 0.0
      else match freq
        case Weekly => amount * 4.0
        case Fortnightly => amount * 2.0
        case Monthly => amount
        case Quarterly => if diff.Some? && diff.value % 3 == 0 then amount else 0.0
        case Yearly => if diff.Some? && diff.value % 12 == 0 then amount else 0.0
        case _ => 0.0
  }

  /** The target month's total: the contributions of the bills, added up in
      list order starting from 0. */
  function MonthTotal(bills: seq<Bill>, target: YearMonth, parse: DateParser): (t: real)
    ensures (forall i :: 0 <= i < |bills| ==> bills[i].data.amount >= 0.0) ==> t >= 0.0
  {
    if bills == [] then 0.0
    else MonthTotal(bills[..|bills| - 1], target, parse) + Contribution(bills[|bills| - 1], target, parse)
  }

  /** The projection as a whole: one total per target month. */
  function MonthlyTotals(bills: seq<Bill>, now: YearMonth, parse: DateParser): (r: seq<real>)
    ensures |r| == WindowLength
  {
    var months := TargetMonths(now);
    seq(WindowLength, i requires 0 <= i < WindowLength => MonthTotal(bills, months[i], parse))
  }

  /** Entry i of the projection is the total of whichever calendar month lies
      i months after the current one. */
  lemma MonthlyTotalsEntry(bills: seq<Bill>, now: YearMonth, parse: DateParser, i: nat, m: YearMonth)
    requires i < WindowLength && ValidMonth(m) && MonthNumber(m) == MonthNumber(now) + i
    ensures MonthlyTotals(bills, now, parse)[i] == MonthTotal(bills, m, parse)
  {
    MonthNumberInjective(TargetMonths(now)[i], m);
  }

  /** One month's total as the component accumulates it: `total` starts at 0
      and each bill's contribution is added in list order. */
  method AccumulateMonth(bills: seq<Bill>, target: YearMonth, parse: DateParser) returns (total: real)
    ensures total == MonthTotal(bills, target, parse)
  {
    total := 0.0;
    var j := 0;
    while j < |bills|
      invariant 0 <= j <= |bills|
      invariant total == MonthTotal(bills[..j], target, parse)
    {
      assert bills[..j + 1][..j] == bills[..j];
      total := total + Contribution(bills[j], target, parse);
      j := j + 1;
    }
    assert bills[..|bills|] == bills;
  }

  /** The projection as the component computes it: for each target month, walk
      the bills and accumulate their contributions. */
  method ProjectTimeline(bills: seq<Bill>, now: YearMonth, parse: DateParser) returns (totals: seq<real>)
    ensures totals == MonthlyTotals(bills, now, parse)
  {
    var months := TargetMonths(now);
    totals := [];
    var i := 0;
    while i < WindowLength
      invariant 0 <= i <= WindowLength
      invariant |totals| == i
      invariant forall k :: 0 <= k < i ==> totals[k] == MonthTotal(bills, months[k], parse)
    {
      var total := AccumulateMonth(bills, months[i], parse);
      totals := totals + [total];
      i := i + 1;
    }
  }

  // ---------------------------------------------------------------------
  // Properties of the projection

  /** With no bills, every month's total is 0. */
  lemma EmptyProjectionIsZero(now: YearMonth, parse: DateParser)
    ensures MonthlyTotals([], now, parse) == seq(WindowLength, i => 0.0)
  {
  }

  /** Totals are additive over a concatenation of bill lists. */
  lemma {:induction false} MonthTotalAppend(a: seq<Bill>, b: seq<Bill>, target: YearMonth, parse: DateParser)
    ensures MonthTotal(a + b, target, parse) == MonthTotal(a, target, parse) + MonthTotal(b, target, parse)
    decreases |b|
  {
    if b == [] {
      assert a + b == a;
    } else {
      var b' := b[..|b| - 1];
      assert (a + b)[..|a + b| - 1] == a + b';
      MonthTotalAppend(a, b', target, parse);
    }
  }

  /** The whole projection is additive over a concatenation of bill lists. */
  lemma ProjectionAdditive(a: seq<Bill>, b: seq<Bill>, now: YearMonth, parse: DateParser)
    ensures forall i :: 0 <= i < WindowLength ==>
      MonthlyTotals(a + b, now, parse)[i] == MonthlyTotals(a, now, parse)[i] + MonthlyTotals(b, now, parse)[i]
  {
    forall i | 0 <= i < WindowLength
      ensures MonthlyTotals(a + b, now, parse)[i] == MonthlyTotals(a, now, parse)[i] + MonthlyTotals(b, now, parse)[i]
    {
      MonthTotalAppend(a, b, TargetMonths(now)[i], parse);
    }
  }

  /** A single bill's total in a month is its contribution. */
  lemma SingleBillTotal(bill: Bill, target: YearMonth, parse: DateParser)
    ensures MonthTotal([bill], target, parse) == Contribution(bill, target, parse)
  {
    assert [bill][..0] == [];
  }

  /** A One-time bill adds its amount in its own month and nothing elsewhere. */
  lemma OneTimeOnlyInItsMonth(bill: Bill, target: YearMonth, parse: DateParser)
    requires ParseFrequency(bill.data.frequency) == OneTime
    requires parse(bill.data.date).Some?
    ensures MonthOf(parse(bill.data.date).value) == target ==> Contribution(bill, target, parse) == bill.data.amount
    ensures MonthOf(parse(bill.data.date).value) != target ==> Contribution(bill, target, parse) == 0.0
  {
  }

  /** A One-time bill dated in the k-th target month shows up at index k of
      the projection and nowhere else. */
  lemma OneTimeInWindow(bill: Bill, now: YearMonth, parse: DateParser, k: nat)
    requires ParseFrequency(bill.data.frequency) == OneTime
    requires parse(bill.data.date).Some? && ValidMonth(MonthOf(parse(bill.data.date).value))
    requires k < WindowLength && MonthNumber(MonthOf(parse(bill.data.date).value)) == MonthNumber(now) + k
    ensures forall i :: 0 <= i < WindowLength ==>
      MonthlyTotals([bill], now, parse)[i] == (if i == k then bill.data.amount else 0.0)
  {
    var d := MonthOf(parse(bill.data.date).value);
    forall i | 0 <= i < WindowLength
      ensures MonthlyTotals([bill], now, parse)[i] == (if i == k then bill.data.amount else 0.0)
    {
      var t := TargetMonths(now)[i];
      SingleBillTotal(bill, t, parse);
      MonthNumberInjective(d, t);
    }
  }

  /** A recurring bill adds nothing to a month before its anchor month. */
  lemma RecurringSilentBeforeAnchor(bill: Bill, target: YearMonth, parse: DateParser)
    requires ParseFrequency(bill.data.frequency) != OneTime
    requires parse(bill.data.date).Some?
    requires MonthNumber(target) < MonthNumber(MonthOf(parse(bill.data.date).value))
    ensures Contribution(bill, target, parse) == 0.0
  {
  }

  /** From its anchor month on, a recurring bill adds, in each month that is
      `diff` months after the anchor: four times its amount if Weekly, twice if
      Fortnightly, once if Monthly, once every third month if Quarterly and
      once every twelfth if Yearly. */
  lemma RecurringFromAnchor(bill: Bill, target: YearMonth, parse: DateParser)
    requires parse(bill.data.date).Some?
    requires MonthNumber(target) >= MonthNumber(MonthOf(parse(bill.data.date).value))
    ensures var diff := MonthNumber(target) - MonthNumber(MonthOf(parse(bill.data.date).value));
      var a := bill.data.amount;
      var c := Contribution(bill, target, parse);
      match ParseFrequency(bill.data.frequency)
      case Weekly => c == 4.0 * a
      case Fortnightly => c == 2.0 * a
      case Monthly => c == a
      case Quarterly => c == (if diff % 3 == 0 then a else 0.0)
      case Yearly => c == (if diff % 12 == 0 then a else 0.0)
      case OneTime => true
      case Unknown(_) => c == 0.0
  {
  }

  /** A bill whose date does not parse gets a NaN month difference, which
      is not below zero and not a multiple of anything: Weekly, Fortnightly
      and Monthly still count in every month, every other frequency in none. */
  lemma UnparseableDateContribution(bill: Bill, target: YearMonth, parse: DateParser)
    requires parse(bill.data.date).None?
    ensures var a := bill.data.amount;
      var c := Contribution(bill, target, parse);
      match ParseFrequency(bill.data.frequency)
      case Weekly => c == 4.0 * a
      case Fortnightly => c == 2.0 * a
      case Monthly => c == a
      case Quarterly => c == 0.0
      case Yearly => c == 0.0
      case OneTime => c == 0.0
      case Unknown(_) => c == 0.0
  {
  }

  /** A frequency outside the six listed names contributes nothing, whatever
      the date. */
  lemma UnknownFrequencyContributesNothing(bill: Bill, target: YearMonth, parse: DateParser)
    requires bill.data.frequency !in Frequencies
    ensures Contribution(bill, target, parse) == 0.0
  {
  }

  /** Quarterly and Yearly bills repeat with their period: from the anchor on,
      a month and the month one period later get the same contribution. */
  lemma PeriodicFromAnchor(bill: Bill, target: YearMonth, parse: DateParser)
    requires parse(bill.data.date).Some?
    requires MonthNumber(target) >= MonthNumber(MonthOf(parse(bill.data.date).value))
    ensures ParseFrequency(bill.data.frequency) == Quarterly ==>
      Contribution(bill, AddMonths(target, 3), parse) == Contribution(bill, target, parse)
    ensures ParseFrequency(bill.data.frequency) == Yearly ==>
      Contribution(bill, AddMonths(target, 12), parse) == Contribution(bill, target, parse)
  {
    var diff := MonthNumber(target) - MonthNumber(MonthOf(parse(bill.data.date).value));
    assert (diff + 3) % 3 == diff % 3;
    assert (diff + 12) % 12 == diff % 12;
    RecurringFromAnchor(bill, target, parse);
    RecurringFromAnchor(bill, AddMonths(target, 3), parse);
    RecurringFromAnchor(bill, AddMonths(target, 12), parse);
  }

  /** Every month's total is non-negative when every amount is. */
  lemma ProjectionNonNegative(bills: seq<Bill>, now: YearMonth, parse: DateParser)
    requires forall i :: 0 <= i < |bills| ==> bills[i].data.amount >= 0.0
    ensures forall i :: 0 <= i < WindowLength ==> MonthlyTotals(bills, now, parse)[i] >= 0.0
  {
  }

  /** A bill anchored in the current month, alone in the list: Weekly and
      Fortnightly add four and two times the amount to all 12 months, Monthly
      the amount to all 12, Quarterly the amount to months 0, 3, 6 and 9 only,
      Yearly the amount to month 0 only. */
  lemma AnchoredNowWindow(bill: Bill, now: YearMonth, parse: DateParser, i: nat)
    requires ValidMonth(now)
    requires parse(bill.data.date).Some? && MonthOf(parse(bill.data.date).value) == now
    requires i < WindowLength
    ensures var a := bill.data.amount;
      var t := MonthlyTotals([bill], now, parse)[i];
      match ParseFrequency(bill.data.frequency)
      case Weekly => t == 4.0 * a
      case Fortnightly => t == 2.0 * a
      case Monthly => t == a
      case Quarterly => t == (if i in {0, 3, 6, 9} then a else 0.0)
      case Yearly => t == (if i == 0 then a else 0.0)
      case OneTime => t == (if i == 0 then a else 0.0)
      case Unknown(_) => t == 0.0
  {
    var target := TargetMonths(now)[i];
    SingleBillTotal(bill, target, parse);
    RecurringFromAnchor(bill, target, parse);
    if ParseFrequency(bill.data.frequency) == OneTime {
      MonthNumberInjective(now, target);
    }
  }
}
