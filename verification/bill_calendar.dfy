/** The bill calendar: bills grouped by due date, the upcoming-bills list
    and each bill's overdue / due-soon flags. Days are day numbers; `today`
    is the day number of the current date. */
module BillCalendar {
  import opened Wrappers
  import opened Seqs
  import opened Calendar
  import opened Records

  /** A bill due on `d`. */
  function DueOn(d: CivilDate): RecurringBill -> bool {
    (b: RecurringBill) => b.nextDueDate == Some(d)
  }

  /** `billsByDate`: each bill with a due date is appended to the list
      under that date; bills without one are skipped. */
  function BillsByDate(bills: seq<RecurringBill>): map<CivilDate, seq<RecurringBill>>
    decreases |bills|
  {
    if bills == [] then map[]
    else
      var groups := BillsByDate(bills[..|bills| - 1]);
      var b := bills[|bills| - 1];
      if b.nextDueDate.None? then groups
      else
        var d := b.nextDueDate.value;
        groups[d := (if d in groups then groups[d] else []) + [b]]
  }

  /** `billsByDate[key]`, an absent key read as no bills. */
  function BillsOn(groups: map<CivilDate, seq<RecurringBill>>, d: CivilDate): seq<RecurringBill> {
    if d in groups then groups[d] else []
  }

  /** Appending one bill changes only the group of its own due date. */
  lemma GroupsSnoc(bills: seq<RecurringBill>, b: RecurringBill, d: CivilDate)
    ensures Filter(bills + [b], DueOn(d)) == Filter(bills, DueOn(d)) + (if b.nextDueDate == Some(d) then [b] else [])
  {
    FilterAppend(bills, [b], DueOn(d));
    assert Filter([b], DueOn(d)) == if b.nextDueDate == Some(d) then [b] else [];
  }

  /** The group under a date is exactly the bills due that day, in input
      order, and a date is a key only when some bill is due on it. */
  lemma {:induction false} BillsByDateGroups(bills: seq<RecurringBill>, d: CivilDate)
    ensures BillsOn(BillsByDate(bills), d) == Filter(bills, DueOn(d))
    ensures d in BillsByDate(bills) <==> Filter(bills, DueOn(d)) != []
    decreases |bills|
  {
    if bills != [] {
      var xs := bills[..|bills| - 1];
      var b := bills[|bills| - 1];
      assert bills == xs + [b];
      BillsByDateGroups(xs, d);
      GroupsSnoc(xs, b, d);
    }
  }

  /** Every dated bill is in the group of its date and in no other group;
      an undated bill is in no group. */
  lemma BillInOneGroup(bills: seq<RecurringBill>, b: RecurringBill, d: CivilDate)
    requires b in bills
    ensures b in BillsOn(BillsByDate(bills), d) <==> b.nextDueDate == Some(d)
  {
    BillsByDateGroups(bills, d);
    if b.nextDueDate == Some(d) {
      var i :| 0 <= i < |bills| && bills[i] == b;
      assert DueOn(d)(bills[i]);
    }
  }

  /** A calendar cell shows a marker for each of the day's first three
      bills. */
  function Markers(dayBills: seq<RecurringBill>): (r: seq<RecurringBill>)
    ensures |r| <= 3
    ensures |r| == 3 || r == dayBills
    ensures |r| == if |dayBills| < 3 then |dayBills| else 3
    ensures |dayBills| <= 3 ==> r == dayBills
    ensures forall i :: 0 <= i < |r| ==> r[i] == dayBills[i]
  {
    Take(dayBills, 3)
  }

  /** `daysUntil`: whole days from today to the bill's due date. */
  function DaysUntil(due: CivilDate, today: int): int {
    DayNumber(due) - today
  }

  predicate IsOverdue(daysUntil: int) {
    daysUntil < 0
  }

  predicate IsDueSoon(daysUntil: int) {
    0 <= daysUntil <= 3
  }

  /** A bill is never flagged overdue and due soon at once. */
  lemma OverdueExcludesDueSoon(due: CivilDate, today: int)
    ensures !(IsOverdue(DaysUntil(due, today)) && IsDueSoon(DaysUntil(due, today)))
  {
  }

  /** The upcoming filter: a due date 0 to 7 days away. An undated bill
      fails it, as the date difference of a missing date is not a number. */
  function DueWithinWeek(today: int): RecurringBill -> bool {
    (b: RecurringBill) => b.nextDueDate.Some? && 0 <= DaysUntil(b.nextDueDate.value, today) <= 7
  }

  /** The "Upcoming Bills (Next 7 Days)" list. */
  function UpcomingBills(bills: seq<RecurringBill>, today: int): (r: seq<RecurringBill>)
    ensures |r| <= 5 && |r| <= |Filter(bills, DueWithinWeek(today))|
    ensures |r| == if |Filter(bills, DueWithinWeek(today))| < 5 then |Filter(bills, DueWithinWeek(today))| else 5
    ensures forall i :: 0 <= i < |r| ==> r[i] == Filter(bills, DueWithinWeek(today))[i]
    ensures |Filter(bills, DueWithinWeek(today))| <= 5 ==> r == Filter(bills, DueWithinWeek(today))
  {
    Take(Filter(bills, DueWithinWeek(today)), 5)
  }

  /** Everything listed as upcoming is a bill due within the week. */
  lemma UpcomingAreDueWithinWeek(bills: seq<RecurringBill>, today: int)
    ensures forall b :: b in UpcomingBills(bills, today) ==>
              b in bills && b.nextDueDate.Some? && 0 <= DaysUntil(b.nextDueDate.value, today) <= 7
  {
    var r := UpcomingBills(bills, today);
    var f := Filter(bills, DueWithinWeek(today));
    forall b | b in r
      ensures b in bills && b.nextDueDate.Some? && 0 <= DaysUntil(b.nextDueDate.value, today) <= 7
    {
      var i :| 0 <= i < |r| && r[i] == b;
      assert r[i] == f[i];
      assert DueWithinWeek(today)(f[i]);
    }
  }

  /** A due-soon bill passes the upcoming filter, as [0, 3] lies within
      [0, 7]. */
  lemma DueSoonIsUpcoming(b: RecurringBill, today: int)
    requires b.nextDueDate.Some?
    requires IsDueSoon(DaysUntil(b.nextDueDate.value, today))
    ensures DueWithinWeek(today)(b)
  {
  }
}
