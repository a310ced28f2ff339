/** The daily expense tracker: search and filter, newest-first or
    largest-first ordering, the filtered total and the payment-method
    lookup. */
module DailyExpenseTracker {
  import opened Wrappers
  import opened Seqs
  import opened Text
  import opened Calendar
  import opened Records

  /** `description?.toLowerCase().includes(term.toLowerCase())`: a missing
      field never matches. */
  predicate FieldMatches(field: Option<string>, term: string) {
    field.Some? && Contains(Lower(field.value), Lower(term))
  }

  /** The search matches the description or the category. */
  predicate MatchesSearch(e: DailyExpense, term: string) {
    FieldMatches(e.description, term) || FieldMatches(e.category, term)
  }

  /** One field's test is a substring test on the lower-cased texts. */
  lemma FieldMatchesIff(field: Option<string>, term: string)
    ensures FieldMatches(field, term) <==> field.Some? && exists i :: OccursAt(Lower(field.value), Lower(term), i)
  {
    if field.Some? {
      var hay, needle := Lower(field.value), Lower(term);
      ContainsIff(hay, needle);
      assert FieldMatches(field, term) ==> exists i :: OccursAt(Lower(field.value), Lower(term), i);
      assert (exists i :: OccursAt(Lower(field.value), Lower(term), i)) ==> FieldMatches(field, term);
    }
  }

  /** Search is a case-insensitive substring test: the lower-cased term
      occurs somewhere in the lower-cased description or category. */
  lemma MatchesSearchIff(e: DailyExpense, term: string)
    ensures MatchesSearch(e, term) <==>
      (e.description.Some? && exists i :: OccursAt(Lower(e.description.value), Lower(term), i)) ||
      (e.category.Some? && exists i :: OccursAt(Lower(e.category.value), Lower(term), i))
  {
    FieldMatchesIff(e.description, term);
    FieldMatchesIff(e.category, term);
  }

  /** The empty search keeps exactly the expenses that have a description
      or a category; one with neither is never listed. */
  lemma EmptySearchNeedsSomeText(e: DailyExpense)
    ensures MatchesSearch(e, "") <==> e.description.Some? || e.category.Some?
  {
    if e.description.Some? {
      ContainsEmpty(Lower(e.description.value));
    }
    if e.category.Some? {
      ContainsEmpty(Lower(e.category.value));
    }
  }

  /** A select's value: `all`, or the exact value a row must carry. */
  predicate MatchesChoice(choice: string, field: Option<string>) {
    choice == "all" || field == Some(choice)
  }

  /** The three filter controls. */
  datatype ExpenseFilters = ExpenseFilters(search: string, category: string, payment: string)

  predicate Keep(e: DailyExpense, f: ExpenseFilters) {
    MatchesSearch(e, f.search) && MatchesChoice(f.category, e.category) && MatchesChoice(f.payment, e.paymentMethod)
  }

  function KeepWith(f: ExpenseFilters): DailyExpense -> bool {
    (e: DailyExpense) => Keep(e, f)
  }

  datatype SortKey = ByDate | ByAmount

  function DateKey(e: DailyExpense): real {
    DayNumber(e.date) as real
  }

  function AmountKey(e: DailyExpense): real {
    e.amount
  }

  function KeyOf(k: SortKey): DailyExpense -> real {
    match k
    case ByDate => DateKey
    case ByAmount => AmountKey
  }

  /** Sorted by the date key means newest first. */
  lemma {:induction false} DateOrder(r: seq<DailyExpense>)
    requires SortedDesc(r, KeyOf(ByDate))
    ensures forall i, j :: 0 <= i < j < |r| ==> DayNumber(r[i].date) >= DayNumber(r[j].date)
  {
    forall i, j | 0 <= i < j < |r|
      ensures DayNumber(r[i].date) >= DayNumber(r[j].date)
    {
      assert DateKey(r[i]) >= DateKey(r[j]);
    }
  }

  /** Sorted by the amount key means largest first. */
  lemma {:induction false} AmountOrder(r: seq<DailyExpense>)
    requires SortedDesc(r, KeyOf(ByAmount))
    ensures forall i, j :: 0 <= i < j < |r| ==> r[i].amount >= r[j].amount
  {
    forall i, j | 0 <= i < j < |r|
      ensures r[i].amount >= r[j].amount
    {
      assert AmountKey(r[i]) >= AmountKey(r[j]);
    }
  }

  /** `filteredExpenses`: the kept expenses, newest first or largest
      first. */
  function FilteredExpenses(expenses: seq<DailyExpense>, f: ExpenseFilters, k: SortKey): (r: seq<DailyExpense>)
    ensures multiset(r) == multiset(Filter(expenses, KeepWith(f)))
    ensures forall i :: 0 <= i < |r| ==> Keep(r[i], f) && r[i] in expenses
    ensures forall i :: 0 <= i < |expenses| && Keep(expenses[i], f) ==> expenses[i] in r
    ensures k == ByDate ==> forall i, j :: 0 <= i < j < |r| ==> DayNumber(r[i].date) >= DayNumber(r[j].date)
    ensures k == ByAmount ==> forall i, j :: 0 <= i < j < |r| ==> r[i].amount >= r[j].amount
  {
    var r := SortDesc(Filter(expenses, KeepWith(f)), KeyOf(k));
    KeptMembers(expenses, f, r);
    if k == ByDate then DateOrder(r); r
    else AmountOrder(r); r
  }

  /** A reordering of the kept expenses holds exactly the expenses the
      filters keep. */
  lemma KeptMembers(expenses: seq<DailyExpense>, f: ExpenseFilters, r: seq<DailyExpense>)
    requires multiset(r) == multiset(Filter(expenses, KeepWith(f)))
    ensures forall i :: 0 <= i < |r| ==> Keep(r[i], f) && r[i] in expenses
    ensures forall i :: 0 <= i < |expenses| && Keep(expenses[i], f) ==> expenses[i] in r
  {
    var kept := Filter(expenses, KeepWith(f));
    SameElements(r, kept);
    forall i | 0 <= i < |r|
      ensures Keep(r[i], f) && r[i] in expenses
    {
      FilterMember(expenses, KeepWith(f), r[i]);
    }
    forall i | 0 <= i < |expenses| && Keep(expenses[i], f)
      ensures expenses[i] in r
    {
      assert KeepWith(f)(expenses[i]);
      assert expenses[i] in kept;
    }
  }

  /** `totalExpenses`. */
  function Total(filtered: seq<DailyExpense>): real {
    Sum(filtered, AmountKey)
  }

  /** The total is the sum of the kept amounts whichever order is chosen. */
  lemma TotalIgnoresSortKey(expenses: seq<DailyExpense>, f: ExpenseFilters, k: SortKey)
    ensures Total(FilteredExpenses(expenses, f, k)) == Sum(Filter(expenses, KeepWith(f)), AmountKey)
  {
    SumPermutation(FilteredExpenses(expenses, f, k), Filter(expenses, KeepWith(f)), AmountKey);
  }

  /** An entry of `PAYMENT_METHODS` without its icon glyph; `labelText` is
      the entry's `label` (a reserved word in Dafny). */
  datatype PaymentMethod = PaymentMethod(value: string, labelText: string)

  const PaymentMethods: seq<PaymentMethod> := [
    PaymentMethod("cash", "Cash"),
    PaymentMethod("card", "Card"),
    PaymentMethod("upi", "UPI"),
    PaymentMethod("wallet", "Wallet"),
    PaymentMethod("bank_transfer", "Bank Transfer")]

  /** The listed method whose value is the expense's payment method. */
  function PaymentMethodOf(e: DailyExpense): (r: Option<PaymentMethod>)
    ensures r.Some? ==> r.value in PaymentMethods && e.paymentMethod == Some(r.value.value)
    ensures r.None? <==> e.paymentMethod.None? || forall i :: 0 <= i < |PaymentMethods| ==> PaymentMethods[i].value != e.paymentMethod.value
  {
    Find(PaymentMethods, (pm: PaymentMethod) => e.paymentMethod == Some(pm.value))
  }

  /** The five methods are told apart by value, so a known method finds its
      own entry. */
  lemma PaymentLookupFindsOwnEntry(e: DailyExpense, i: nat)
    requires i < |PaymentMethods|
    requires e.paymentMethod == Some(PaymentMethods[i].value)
    ensures PaymentMethodOf(e) == Some(PaymentMethods[i])
  {
    forall j | 0 <= j < i
      ensures PaymentMethods[j].value != PaymentMethods[i].value
    {
    }
    FindFirst(PaymentMethods, (pm: PaymentMethod) => e.paymentMethod == Some(pm.value), i);
  }
}
