/** The add/edit modal: which table an item type writes to, the row a
    submitted form becomes, insert versus update, and how the form is
    prefilled. Numbers in the form are already parsed: a blank amount is
    `None`, which is also what `parseFloat('')` (not a number) stands for
    in a payload. */
module AddItem {
  import opened Wrappers
  import opened Records

  datatype ItemType = TransactionItem | AssetItem | LiabilityItem | GoalItem

  /** The table chosen by the `if` chain of the submit handler. */
  function SubmitTable(t: ItemType): string {
    if t == TransactionItem then "transactions"
    else if t == AssetItem then "assets"
    else if t == LiabilityItem then "liabilities"
    else "goals"
  }

  /** The table chosen by the conditional expression of the delete
      handler. */
  function DeleteTable(t: ItemType): string {
    match t
    case TransactionItem => "transactions"
    case AssetItem => "assets"
    case LiabilityItem => "liabilities"
    case GoalItem => "goals"
  }

  /** Submit and delete agree on every type, and no two types share a
      table. */
  lemma TablesAgree(t: ItemType, u: ItemType)
    ensures SubmitTable(t) == DeleteTable(t)
    ensures t != u ==> SubmitTable(t) != SubmitTable(u)
  {
  }

  /** The modal's form state. */
  datatype Form = Form(
    id: string,
    name: string,
    amount: Option<real>,
    category: string,
    txnType: string,
    date: string,
    targetYear: string)

  /** The fields of the row being edited that the prefill reads; any of
      them may be absent, as the row may come from any of the four
      tables. */
  datatype Item = Item(
    id: string,
    name: Option<string>,
    description: Option<string>,
    amount: Option<real>,
    value: Option<real>,
    totalAmount: Option<real>,
    targetAmount: Option<real>,
    category: Option<string>,
    kind: Option<string>,
    date: Option<string>,
    targetYear: Option<string>)

  /** The add-mode form; `today` is the current date as `yyyy-MM-dd`. */
  function DefaultForm(today: string): (f: Form)
    ensures f.id == "" && f.name == "" && f.amount.None? && f.targetYear == ""
    ensures f.category == "Food" && f.txnType == "expense" && f.date == today
  {
    Form("", "", None, "Food", "expense", today, "")
  }

  /** `a || b || c || d || ''` over nullable numbers. */
  function FirstTruthy(xs: seq<Option<real>>): (r: Option<real>)
    ensures r.Some? ==> r.value != 0.0 && Some(r.value) in xs
    ensures r.None? <==> forall i :: 0 <= i < |xs| ==> !Truthy(xs[i])
    ensures r.Some? ==> exists i :: 0 <= i < |xs| && xs[i] == r && forall j :: 0 <= j < i ==> !Truthy(xs[j])
  {
    if xs == [] then None
    else if Truthy(xs[0]) then xs[0]
    else
      var rest := FirstTruthy(xs[1..]);
      if rest.Some? then
        var i :| 0 < i + 1 <= |xs[1..]| && xs[1..][i] == rest && forall j :: 0 <= j < i ==> !Truthy(xs[1..][j]);
        assert xs[i + 1] == rest;
        assert forall j :: 0 <= j < i + 1 ==> !Truthy(xs[j]) by {
          forall j | 0 <= j < i + 1
            ensures !Truthy(xs[j])
          {
            if j > 0 {
              assert xs[j] == xs[1..][j - 1];
            }
          }
        }
        rest
      else
        rest
  }

  /** The edit-mode form. */
  function Prefill(item: Item, today: string): (f: Form)
    ensures f.id == item.id
    ensures f.name == OrElseText(item.name, OrElseText(item.description, ""))
    ensures f.amount == FirstTruthy([item.amount, item.value, item.totalAmount, item.targetAmount])
    ensures f.category == OrElseText(item.category, "Food")
    ensures f.txnType == OrElseText(item.kind, "expense")
    ensures f.date == OrElseText(item.date, today)
    ensures f.targetYear == OrElseText(item.targetYear, "")
  {
    Form(item.id,
         OrElseText(item.name, OrElseText(item.description, "")),
         FirstTruthy([item.amount, item.value, item.totalAmount, item.targetAmount]),
         OrElseText(item.category, "Food"),
         OrElseText(item.kind, "expense"),
         OrElseText(item.date, today),
         OrElseText(item.targetYear, ""))
  }

  /** The form shown: prefilled from the row in edit mode, reset in add
      mode. */
  function FormFor(initial: Option<Item>, today: string): (f: Form)
    ensures initial.None? ==> f == DefaultForm(today)
    ensures initial.Some? ==> f == Prefill(initial.value, today)
  {
    if initial.Some? then Prefill(initial.value, today) else DefaultForm(today)
  }

  /** The row written for each type. */
  datatype Payload =
    | TransactionRow(amount: Option<real>, category: string, kind: string, date: string, description: string)
    | AssetRow(name: string, value: Option<real>, kind: string)
    | LiabilityRow(name: string, totalAmount: Option<real>, kind: string)
    | GoalRow(name: string, targetAmount: Option<real>, targetYear: string)

  function PayloadFor(t: ItemType, form: Form): (p: Payload)
    ensures t == TransactionItem <==> p.TransactionRow?
    ensures t == AssetItem <==> p.AssetRow?
    ensures t == LiabilityItem <==> p.LiabilityRow?
    ensures t == GoalItem <==> p.GoalRow?
    ensures p.TransactionRow? ==> p.description == form.name && p.kind == form.txnType && p.amount == form.amount
    ensures p.TransactionRow? ==> p.category == form.category && p.date == form.date
    ensures p.AssetRow? ==> p.name == form.name && p.value == form.amount && p.kind == "investment"
    ensures p.LiabilityRow? ==> p.name == form.name && p.totalAmount == form.amount && p.kind == "loan"
    ensures p.GoalRow? ==> p.name == form.name && p.targetAmount == form.amount && p.targetYear == form.targetYear
  {
    match t
    case TransactionItem => TransactionRow(form.amount, form.category, form.txnType, form.date, form.name)
    case AssetItem => AssetRow(form.name, form.amount, "investment")
    case LiabilityItem => LiabilityRow(form.name, form.amount, "loan")
    case GoalItem => GoalRow(form.name, form.amount, form.targetYear)
  }

  /** The database call a submit makes. */
  datatype Write =
    | Insert(table: string, payload: Payload, userId: UserId)
    | Update(table: string, payload: Payload, id: string)

  /** The submit handler: nothing without a signed-in user; otherwise an
      update of the edited row, or an insert tagged with the user. */
  function Submit(t: ItemType, form: Form, initial: Option<Item>, user: Option<UserId>): (w: Option<Write>)
    ensures user.None? <==> w.None?
    ensures w.Some? ==> w.value.table == SubmitTable(t) && w.value.payload == PayloadFor(t, form)
    ensures w.Some? && initial.Some? ==> w.value == Update(SubmitTable(t), PayloadFor(t, form), initial.value.id)
    ensures w.Some? && initial.None? ==> w.value == Insert(SubmitTable(t), PayloadFor(t, form), user.value)
  {
    if user.None? then None
    else if initial.Some? then Some(Update(SubmitTable(t), PayloadFor(t, form), initial.value.id))
    else Some(Insert(SubmitTable(t), PayloadFor(t, form), user.value))
  }

  /** Opening a stored transaction and saving it unchanged writes back its
      own amount, category, type, date and description, to its own id. */
  lemma TransactionEditRoundTrip(item: Item, today: string, user: UserId)
    requires !TruthyText(item.name) && TruthyText(item.description)
    requires Truthy(item.amount)
    requires TruthyText(item.category) && TruthyText(item.kind) && TruthyText(item.date)
    ensures Submit(TransactionItem, Prefill(item, today), Some(item), Some(user))
         == Some(Update("transactions",
                        TransactionRow(item.amount, item.category.value, item.kind.value, item.date.value, item.description.value),
                        item.id))
  {
  }

  /** Saving a stored liability unchanged writes its total back but resets
      its type to `loan`, whatever it was. */
  lemma LiabilityEditResetsType(item: Item, today: string, user: UserId)
    requires TruthyText(item.name)
    requires !Truthy(item.amount) && !Truthy(item.value) && Truthy(item.totalAmount)
    ensures Submit(LiabilityItem, Prefill(item, today), Some(item), Some(user))
         == Some(Update("liabilities", LiabilityRow(item.name.value, item.totalAmount, "loan"), item.id))
  {
    var xs := [item.amount, item.value, item.totalAmount, item.targetAmount];
    assert Truthy(xs[2]);
    var r := FirstTruthy(xs);
    assert r.Some?;
    var i :| 0 <= i < |xs| && xs[i] == r && forall j :: 0 <= j < i ==> !Truthy(xs[j]);
    assert Truthy(xs[i]);
    assert i >= 2;
  }
}
