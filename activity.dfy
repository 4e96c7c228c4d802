/** Activity aggregation: which transaction records count towards a user's
    monthly total, and how their amounts are summed.

    The store query `transaction_history where user_id == ref and
    created_at >= beginning_of_month` is modelled as a filter over a given
    sequence of records, and the Ruby `sum { |t| t[:amount] || 0 }` as a
    sum that may fail, because Ruby raises a TypeError when it adds a
    string or `true` to an integer. */
module Activity {
  import opened Store

  /** A calendar date in the job's reference time zone. */
  datatype Date = Date(year: int, month: int, day: int)

  /** Leap years of the proleptic Gregorian calendar. */
  predicate LeapYear(year: int) {
    year % 4 == 0 && (year % 100 != 0 || year % 400 == 0)
  }

  function DaysInMonth(year: int, month: int): (n: int)
    requires 1 <= month <= 12
    ensures 28 <= n <= 31
    ensures month == 2 ==> (n == 29 <==> LeapYear(year))
  {
    if month == 2 then (if LeapYear(year) then 29 else 28)
    else if month == 4 || month == 6 || month == 9 || month == 11 then 30
    else 31
  }

  /** A date that exists on the calendar. */
  predicate ValidDate(d: Date) {
    1 <= d.month <= 12 && 1 <= d.day <= DaysInMonth(d.year, d.month)
  }

  /** Seconds in a day. */
  const DaySeconds: nat := 86400

  /** A point in time: a date and the seconds elapsed since its midnight. */
  datatype Instant = Instant(date: Date, sinceMidnight: nat)

  /** An instant that a real timestamp can denote. */
  predicate ValidInstant(t: Instant) {
    ValidDate(t.date) && t.sinceMidnight < DaySeconds
  }

  /** `a` lies strictly before `b`. */
  predicate Earlier(a: Instant, b: Instant) {
    a.date.year < b.date.year ||
    (a.date.year == b.date.year &&
      (a.date.month < b.date.month ||
        (a.date.month == b.date.month &&
          (a.date.day < b.date.day ||
            (a.date.day == b.date.day && a.sinceMidnight < b.sinceMidnight)))))
  }

  /** The query's `created_at >= start`. */
  predicate AtOrAfter(t: Instant, start: Instant) {
    !Earlier(t, start)
  }

  /** `Date.new(today.year, today.month, 1)`, taken as its first instant. */
  function WindowStart(today: Date): (start: Instant)
    ensures start.date.day == 1 && start.sinceMidnight == 0
    ensures ValidDate(today) ==> ValidInstant(start) && AtOrAfter(Instant(today, 0), start)
  {
    Instant(Date(today.year, today.month, 1), 0)
  }

  /** An instant is inside the window exactly when its month is the current
      month or a later one: the window starts at the first instant of the
      month of `today` and has no upper bound. */
  lemma WindowIsCurrentMonthOnward(today: Date, t: Instant)
    requires ValidInstant(t)
    ensures AtOrAfter(t, WindowStart(today)) <==>
      (t.date.year > today.year || (t.date.year == today.year && t.date.month >= today.month))
  {
  }

  /** Line 27 as written reads the clock twice: the year comes from the
      first reading and the month from the second. */
  function WindowStartAsWritten(yearReading: Date, monthReading: Date): (start: Instant)
    ensures yearReading == monthReading ==> start == WindowStart(yearReading)
  {
    Instant(Date(yearReading.year, monthReading.month, 1), 0)
  }

  /** When the two readings straddle midnight of 31 December, the window
      opens on 1 January of the year that is ending, so a record from June
      of that year is summed although it belongs to neither reading's
      month. */
  lemma YearEndWindow(user: UserId)
    ensures WindowStartAsWritten(Date(2025, 12, 31), Date(2026, 1, 1)) == Instant(Date(2025, 1, 1), 0)
    ensures Selects(Transaction(user, Instant(Date(2025, 6, 15), 0), Int(70)), user,
                    WindowStartAsWritten(Date(2025, 12, 31), Date(2026, 1, 1)))
    ensures !Selects(Transaction(user, Instant(Date(2025, 6, 15), 0), Int(70)), user,
                     WindowStart(Date(2025, 12, 31)))
    ensures !Selects(Transaction(user, Instant(Date(2025, 6, 15), 0), Int(70)), user,
                     WindowStart(Date(2026, 1, 1)))
  {
  }

  /** A stored transaction: the owning user's reference, its creation time
      and its `amount` field (`Null` also stands for a missing field, which
      Ruby reads as nil). */
  datatype Transaction = Transaction(userId: UserId, createdAt: Instant, amount: Value)

  /** The two `where` conditions of the query. */
  predicate Selects(r: Transaction, user: UserId, start: Instant) {
    r.userId == user && AtOrAfter(r.createdAt, start)
  }

  /** The query result: the matching records, in store order. */
  function Select(txs: seq<Transaction>, user: UserId, start: Instant): (sel: seq<Transaction>)
    ensures |sel| <= |txs|
    ensures forall r :: r in sel <==> r in txs && Selects(r, user, start)
  {
    if txs == [] then []
    else if Selects(txs[0], user, start) then [txs[0]] + Select(txs[1..], user, start)
    else Select(txs[1..], user, start)
  }

  /** What one record adds to the sum, `t[:amount] || 0`: nil and false
      become 0, an integer is itself, anything else makes Ruby's `+` raise
      (None). */
  function Contribution(amount: Value): (c: Option<int>)
    ensures amount.Int? ==> c == Some(amount.i)
    ensures (amount.Null? || amount == Bool(false)) ==> c == Some(0)
    ensures c.None? <==> amount.Str? || amount == Bool(true)
  {
    match amount
    case Null => Some(0)
    case Bool(b) => if b then None else Some(0)
    case Int(i) => Some(i)
    case Str(_) => None
  }

  datatype Option<T> = None | Some(value: T)

  /** Addition that propagates a failure from either side. */
  function AddOpt(a: Option<int>, b: Option<int>): (s: Option<int>)
    ensures s.Some? <==> a.Some? && b.Some?
    ensures s.Some? ==> s.value == a.value + b.value
  {
    if a.Some? && b.Some? then Some(a.value + b.value) else None
  }

  /** `records.sum { |t| t[:amount] || 0 }`, starting from 0. */
  function SumAmounts(rs: seq<Transaction>): (sum: Option<int>)
    ensures rs == [] ==> sum == Some(0)
    ensures sum.Some? && (forall i :: 0 <= i < |rs| && rs[i].amount.Int? ==> rs[i].amount.i >= 0) ==>
      sum.value >= 0
  {
    if rs == [] then Some(0)
    else AddOpt(Contribution(rs[0].amount), SumAmounts(rs[1..]))
  }

  /** The sum fails exactly when some record's amount cannot be added. */
  lemma {:induction false} SumFailsIff(rs: seq<Transaction>)
    ensures SumAmounts(rs).None? <==> exists i :: 0 <= i < |rs| && Contribution(rs[i].amount).None?
  {
    if rs != [] {
      SumFailsIff(rs[1..]);
      if Contribution(rs[0].amount).Some? && SumAmounts(rs[1..]).None? {
        var i :| 0 <= i < |rs[1..]| && Contribution(rs[1..][i].amount).None?;
        assert rs[i + 1] == rs[1..][i];
      }
      if exists i :: 0 <= i < |rs| && Contribution(rs[i].amount).None? {
        var i :| 0 <= i < |rs| && Contribution(rs[i].amount).None?;
        if i > 0 {
          assert rs[1..][i - 1] == rs[i];
        }
      }
    }
  }

  /** Summing a concatenation is adding the two sums: no record is skipped
      or counted twice, whatever the order of the records. */
  lemma {:induction false} SumAppend(a: seq<Transaction>, b: seq<Transaction>)
    ensures SumAmounts(a + b) == AddOpt(SumAmounts(a), SumAmounts(b))
  {
    if a != [] {
      assert (a + b)[1..] == a[1..] + b;
      SumAppend(a[1..], b);
    } else {
      assert a + b == b;
    }
  }

  /** Records whose amount is nil or missing contribute nothing: a month
      without usable amounts, in particular one without records, sums to 0. */
  lemma {:induction false} SumOfNils(rs: seq<Transaction>)
    requires forall i :: 0 <= i < |rs| ==> rs[i].amount == Null
    ensures SumAmounts(rs) == Some(0)
  {
    if rs != [] {
      SumOfNils(rs[1..]);
    }
  }

  /** The query distributes over a split of the collection. */
  lemma {:induction false} SelectAppend(a: seq<Transaction>, b: seq<Transaction>, user: UserId, start: Instant)
    ensures Select(a + b, user, start) == Select(a, user, start) + Select(b, user, start)
  {
    if a != [] {
      assert (a + b)[1..] == a[1..] + b;
      SelectAppend(a[1..], b, user, start);
    } else {
      assert a + b == b;
    }
  }

  /** The query keeps every matching record as often as it occurs and no
      other record. */
  lemma {:induction false} SelectCounts(txs: seq<Transaction>, user: UserId, start: Instant, r: Transaction)
    ensures multiset(Select(txs, user, start))[r] == if Selects(r, user, start) then multiset(txs)[r] else 0
  {
    if txs != [] {
      SelectCounts(txs[1..], user, start, r);
      assert txs == [txs[0]] + txs[1..];
    }
  }

  /** `aggregate(ref, start)`: the user's total for the window, or None when
      an amount cannot be added. */
  function UserTotal(txs: seq<Transaction>, user: UserId, start: Instant): (total: Option<int>)
    ensures (forall r :: r in txs ==> !Selects(r, user, start)) ==> total == Some(0)
    ensures total.Some? && (forall r :: r in txs && r.amount.Int? ==> r.amount.i >= 0) ==> total.value >= 0
  {
    var sel := Select(txs, user, start);
    assert sel != [] ==> sel[0] in sel;
    SumAmounts(sel)
  }

  /** Reference definition of the total: every record of the collection,
      with the records outside the query contributing 0. */
  function MaskedTotal(txs: seq<Transaction>, user: UserId, start: Instant): (total: Option<int>)
  {
    if txs == [] then Some(0)
    else AddOpt(if Selects(txs[0], user, start) then Contribution(txs[0].amount) else Some(0),
                MaskedTotal(txs[1..], user, start))
  }

  /** The aggregated total equals the reference definition. */
  lemma {:induction false} UserTotalIsMasked(txs: seq<Transaction>, user: UserId, start: Instant)
    ensures UserTotal(txs, user, start) == MaskedTotal(txs, user, start)
  {
    if txs != [] {
      UserTotalIsMasked(txs[1..], user, start);
      if Selects(txs[0], user, start) {
        assert Select(txs, user, start) == [txs[0]] + Select(txs[1..], user, start);
        assert ([txs[0]] + Select(txs[1..], user, start))[1..] == Select(txs[1..], user, start);
      }
    }
  }

  /** A record another user owns, or one created before the window, leaves
      the total as it was; a record the query matches adds its
      contribution. */
  lemma AddRecord(txs: seq<Transaction>, r: Transaction, user: UserId, start: Instant)
    ensures !Selects(r, user, start) ==> UserTotal(txs + [r], user, start) == UserTotal(txs, user, start)
    ensures Selects(r, user, start) ==>
      UserTotal(txs + [r], user, start) == AddOpt(UserTotal(txs, user, start), Contribution(r.amount))
  {
    SelectAppend(txs, [r], user, start);
    assert Select([r], user, start) == if Selects(r, user, start) then [r] else [];
    SumAppend(Select(txs, user, start), Select([r], user, start));
    assert Select(txs, user, start) + [] == Select(txs, user, start);
  }

  /** A record created exactly at the window start is counted; one created
      at any instant before it is not. */
  lemma WindowBoundary(today: Date, user: UserId, amount: Value, before: Instant)
    requires Earlier(before, WindowStart(today))
    ensures Selects(Transaction(user, WindowStart(today), amount), user, WindowStart(today))
    ensures !Selects(Transaction(user, before, amount), user, WindowStart(today))
  {
  }
}
