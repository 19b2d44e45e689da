/** The expense handlers of backend/routes/expense.js: create an expense
    (with the default split and the share recomputation), delete one, and
    compute the house's balances. The store is a list of documents. */
module ExpenseRoutes {
  import opened Common
  import opened Text
  import opened UserModel
  import opened ExpenseModel

  /** One element of the request's `splitWith`: the amount may be missing. */
  datatype SplitInput = SplitInput(user: UserId, amount: Option<real>, settled: bool)

  /** The request body; "" and `None` stand for absent (falsy) fields. */
  datatype ExpenseBody = ExpenseBody(
    description: string,
    amount: Option<real>,
    category: string,
    splitWith: Option<seq<SplitInput>>,
    date: Option<Time>,
    notes: string)

  datatype ExpenseError =
    | NoHouse            // the user belongs to no house
    | MissingFields      // description or amount missing (or zero)
    | NonPositiveAmount  // amount below zero
    | InvalidExpense     // refused by the schema
    | NotFound           // no expense with that id
    | NotPayer           // only the payer may delete

  function ExpenseId(e: Expense): int
  {
    e.id
  }

  /** The schema's checks on a new expense: a trimmed description of 1 to
      100 characters, trimmed notes of at most 500, a category from the
      enum (absent means "other") and an amount on every given split. */
  predicate Acceptable(body: ExpenseBody)
  {
    && 0 < |Trim(body.description)| <= 100
    && |Trim(body.notes)| <= 500
    && ParseCategory(if body.category == "" then "other" else body.category).Some?
    && (body.splitWith.Some? ==> forall k :: 0 <= k < |body.splitWith.value| ==> body.splitWith.value[k].amount.Some?)
  }

  /** The given splits as stored, before any recomputation. */
  function StoredSplits(inputs: seq<SplitInput>): (r: seq<Split>)
    requires forall k :: 0 <= k < |inputs| ==> inputs[k].amount.Some?
    ensures |r| == |inputs|
    ensures forall k :: 0 <= k < |r| ==>
              r[k].user == inputs[k].user && r[k].amount == inputs[k].amount.value && r[k].settled == inputs[k].settled
  {
    seq(|inputs|, k requires 0 <= k < |inputs| && inputs[k].amount.Some? =>
      Split(inputs[k].user, inputs[k].amount.value, inputs[k].settled))
  }

  /** The expenses of one house, in store order. */
  function OfHouse(es: seq<Expense>, house: HouseId): (r: seq<Expense>)
    ensures |r| <= |es|
    ensures forall k :: 0 <= k < |r| ==> r[k] in es && r[k].house == house
    ensures forall k :: 0 <= k < |es| && es[k].house == house ==> es[k] in r
  {
    if es == [] then []
    else (if es[0].house == house then [es[0]] else []) + OfHouse(es[1..], house)
  }

  /** The document `Expense.create` stores for an accepted body: paid by
      `payer` in `house`, with the payer owing everything when no split is
      given, and the pre-save recomputation into equal shares when a
      non-empty split list is. */
  method NewExpense(id: RecordId, house: HouseId, payer: UserId, body: ExpenseBody, now: Time) returns (e: Expense)
    requires body.amount.Some? && body.amount.value > 0.0 && Acceptable(body)
    ensures fresh(e)
    ensures && e.id == id && e.house == house && e.paidBy == payer
            && e.description == Trim(body.description) && e.notes == Trim(body.notes)
            && e.amount == body.amount.value
            && CategoryName(e.category) == (if body.category == "" then "other" else body.category)
            && e.date == (if body.date.Some? then body.date.value else now)
    ensures body.splitWith.None? ==> e.splitWith == [Split(payer, e.amount, false)]
    ensures body.splitWith.Some? ==> e.splitWith == EqualShares(StoredSplits(body.splitWith.value), e.amount)
    ensures body.splitWith == Some([]) ==> e.splitWith == []
    ensures body.splitWith != Some([]) ==> SplitTotal(e.splitWith) == e.amount
  {
    var amount := body.amount.value;
    var category := ParseCategory(if body.category == "" then "other" else body.category).value;
    var date := if body.date.Some? then body.date.value else now;
    var splits := if body.splitWith.Some? then StoredSplits(body.splitWith.value) else [Split(payer, amount, false)];
    e := new Expense(id, house, Trim(body.description), amount, category, payer, splits,
                     date, Trim(body.notes));
    if body.splitWith.Some? && |body.splitWith.value| > 0 {
      e.CalculateShares();
      SharesSumToAmount(splits, amount);
    }
    assert SplitTotal([Split(payer, amount, false)]) == amount;
  }

  class ExpenseService {
    var expenses: seq<Expense>

    /** Expense ids are unique in the store. */
    ghost predicate Valid()
      reads this
    {
      Distinct(KeysOf(expenses, ExpenseId))
    }

    constructor ()
      ensures expenses == [] && Valid()
    {
      expenses := [];
    }

    /** `POST /api/expenses`. Refused, in order, when the user has no
        house, when description or amount is missing, when the amount is
        negative, and when the schema refuses the record. A new expense
        belongs to the user's house and is paid by the user; without a
        `splitWith` the payer owes the whole amount, a non-empty one is
        recomputed into equal shares, and an empty one stays empty. */
    method Create(me: User, body: ExpenseBody, newId: RecordId, now: Time) returns (r: Result<Expense, ExpenseError>)
      requires Valid()
      requires forall k :: 0 <= k < |expenses| ==> expenses[k].id != newId
      modifies this
      ensures Valid()
      ensures me.house.None? ==> r == Err(NoHouse)
      ensures me.house.Some? && (body.description == "" || body.amount.None? || body.amount == Some(0.0)) ==>
                r == Err(MissingFields)
      ensures me.house.Some? && body.description != "" && body.amount.Some? && body.amount.value < 0.0 ==>
                r == Err(NonPositiveAmount)
      ensures r.Ok? <==> me.house.Some? && body.description != "" && body.amount.Some? && body.amount.value > 0.0
                         && Acceptable(body)
      ensures r.Err? ==> expenses == old(expenses)
      ensures r.Ok? ==> && fresh(r.value)
                        && expenses == old(expenses) + [r.value]
                        && r.value.id == newId && r.value.house == me.house.value && r.value.paidBy == me.id
                        && r.value.description == Trim(body.description) && r.value.notes == Trim(body.notes)
                        && r.value.amount == body.amount.value
                        && CategoryName(r.value.category) == (if body.category == "" then "other" else body.category)
                        && r.value.date == (if body.date.Some? then body.date.value else now)
      ensures r.Ok? && body.splitWith.None? ==> r.value.splitWith == [Split(me.id, r.value.amount, false)]
      ensures r.Ok? && body.splitWith.Some? ==>
                r.value.splitWith == EqualShares(StoredSplits(body.splitWith.value), r.value.amount)
      ensures r.Ok? && body.splitWith == Some([]) ==> r.value.splitWith == []
      ensures r.Ok? && body.splitWith != Some([]) ==> SplitTotal(r.value.splitWith) == r.value.amount
    {
      if me.house.None? {
        return Err(NoHouse);
      }
      if body.description == "" || body.amount.None? || body.amount == Some(0.0) {
        return Err(MissingFields);
      }
      var amount := body.amount.value;
      if amount <= 0.0 {
        return Err(NonPositiveAmount);
      }
      if !Acceptable(body) {
        return Err(InvalidExpense);
      }
      var e := NewExpense(newId, me.house.value, me.id, body, now);
      DistinctKeysSnoc(expenses, ExpenseId, e);
      expenses := expenses + [e];
      r := Ok(e);
    }

    /** `DELETE /api/expenses/:id`: an unknown id is not found, and only
        the payer may delete; the expense with that id is then removed and
        every other one stays, in order. */
    method Delete(me: User, id: RecordId) returns (r: Result<RecordId, ExpenseError>)
      requires Valid()
      modifies this
      ensures Valid()
      ensures FindIndex(old(expenses), ExpenseId, id).None? ==> r == Err(NotFound)
      ensures r == Err(NotPayer) <==>
                FindIndex(old(expenses), ExpenseId, id).Some?
                && old(expenses)[FindIndex(old(expenses), ExpenseId, id).value].paidBy != me.id
      ensures r.Ok? <==> FindIndex(old(expenses), ExpenseId, id).Some?
                         && old(expenses)[FindIndex(old(expenses), ExpenseId, id).value].paidBy == me.id
      ensures r.Err? ==> expenses == old(expenses)
      ensures r.Ok? ==> var i := FindIndex(old(expenses), ExpenseId, id).value;
                        && r.value == id
                        && expenses == old(expenses)[..i] + old(expenses)[i + 1..]
    {
      var found := FindIndex(expenses, ExpenseId, id);
      if found.None? {
        return Err(NotFound);
      }
      var i := found.value;
      if expenses[i].paidBy != me.id {
        return Err(NotPayer);
      }
      DropUnique(expenses, ExpenseId, i);
      DistinctKeysRemove(expenses, ExpenseId, i);
      expenses := Drop(expenses, ExpenseId, id);
      r := Ok(id);
    }

    /** `GET /api/expenses/balances/calculate`: refused without a house,
        otherwise the balance sheet of the house's expenses. */
    method HouseBalances(me: User) returns (r: Result<seq<Totals>, ExpenseError>)
      ensures me.house.None? ==> r == Err(NoHouse)
      ensures me.house.Some? ==> r == Ok(Balances(OfHouse(expenses, me.house.value)))
    {
      if me.house.None? {
        return Err(NoHouse);
      }
      var rows := CalculateBalances(OfHouse(expenses, me.house.value));
      r := Ok(rows);
    }
  }
}
