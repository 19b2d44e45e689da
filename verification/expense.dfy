/** The expense record (backend/models/Expense.js): its splits, the
    `isSettled` virtual, the equal-share recomputation `calculateShares`
    and the balance fold `calculateBalances`. Amounts are exact reals. */
module ExpenseModel {
  import opened Common

  datatype ExpenseCategory = Utilities | Food | Rent | Entertainment | Household | Other

  /** The enum's spelling of each category. */
  function CategoryName(c: ExpenseCategory): string
  {
    match c
    case Utilities => "utilities"
    case Food => "food"
    case Rent => "rent"
    case Entertainment => "entertainment"
    case Household => "household"
    case Other => "other"
  }

  /** The category enum check: a string is accepted exactly when it is
      the spelling of some category. */
  function ParseCategory(s: string): (r: Option<ExpenseCategory>)
    ensures r.Some? ==> CategoryName(r.value) == s
    ensures r.None? ==> forall c :: CategoryName(c) != s
  {
    if s == "utilities" then Some(Utilities)
    else if s == "food" then Some(Food)
    else if s == "rent" then Some(Rent)
    else if s == "entertainment" then Some(Entertainment)
    else if s == "household" then Some(Household)
    else if s == "other" then Some(Other)
    else None
  }

  lemma CategoryRoundTrip(c: ExpenseCategory)
    ensures ParseCategory(CategoryName(c)) == Some(c)
  {
  }

  /** One entry of `splitWith`: who owes how much, and whether it is settled. */
  datatype Split = Split(user: UserId, amount: real, settled: bool)

  /** One user's line of the balance sheet. */
  datatype Totals = Totals(user: UserId, paid: real, owes: real, balance: real)

  /** `splitWith.every(split => split.settled)`: true exactly when every
      split is settled, hence vacuously true for no splits. */
  function AllSettled(splits: seq<Split>): (r: bool)
    ensures r <==> forall i :: 0 <= i < |splits| ==> splits[i].settled
  {
    if splits == [] then true
    else
      var rest := AllSettled(splits[1..]);
      assert forall i :: 1 <= i < |splits| ==> splits[i] == splits[1..][i - 1];
      splits[0].settled && rest
  }

  /** What `calculateShares` leaves in `splitWith`: every split keeps its
      user and settled flag and owes an equal part of `amount`. */
  function EqualShares(splits: seq<Split>, amount: real): (r: seq<Split>)
    ensures |r| == |splits|
    ensures forall i :: 0 <= i < |r| ==> r[i].user == splits[i].user && r[i].settled == splits[i].settled
    ensures forall i :: 0 <= i < |r| ==> r[i].amount * (|splits| as real) == amount
  {
    if splits == [] then []
    else
      var share := amount / (|splits| as real);
      seq(|splits|, i requires 0 <= i < |splits| => splits[i].(amount := share))
  }

  /** The sum of the split amounts. */
  function SplitTotal(splits: seq<Split>): real
  {
    if splits == [] then 0.0 else SplitTotal(splits[..|splits| - 1]) + splits[|splits| - 1].amount
  }

  lemma {:induction false} ConstantSplitTotal(splits: seq<Split>, share: real)
    requires forall i :: 0 <= i < |splits| ==> splits[i].amount == share
    ensures SplitTotal(splits) == (|splits| as real) * share
  {
    if splits != [] {
      ConstantSplitTotal(splits[..|splits| - 1], share);
    }
  }

  /** With at least one split, the equal shares add up to the amount. */
  lemma SharesSumToAmount(splits: seq<Split>, amount: real)
    requires |splits| > 0
    ensures SplitTotal(EqualShares(splits, amount)) == amount
  {
    var share := amount / (|splits| as real);
    ConstantSplitTotal(EqualShares(splits, amount), share);
  }

  /** Recomputing the shares a second time changes nothing. */
  lemma SharesIdempotent(splits: seq<Split>, amount: real)
    ensures EqualShares(EqualShares(splits, amount), amount) == EqualShares(splits, amount)
  {
  }

  class Expense {
    const id: RecordId
    const house: HouseId
    const description: string
    const amount: real
    const category: ExpenseCategory
    const paidBy: UserId
    var splitWith: seq<Split>
    const date: Time
    const notes: string

    constructor (id: RecordId, house: HouseId, description: string, amount: real,
                 category: ExpenseCategory, paidBy: UserId, splitWith: seq<Split>,
                 date: Time, notes: string)
      ensures this.id == id && this.house == house && this.description == description
      ensures this.amount == amount && this.category == category && this.paidBy == paidBy
      ensures this.splitWith == splitWith && this.date == date && this.notes == notes
    {
      this.id := id;
      this.house := house;
      this.description := description;
      this.amount := amount;
      this.category := category;
      this.paidBy := paidBy;
      this.splitWith := splitWith;
      this.date := date;
      this.notes := notes;
    }

    /** The `isSettled` virtual. */
    predicate IsSettled()
      reads this
    {
      AllSettled(splitWith)
    }

    /** `calculateShares`: every split, in turn, is set to an equal share. */
    method CalculateShares()
      modifies this`splitWith
      ensures splitWith == EqualShares(old(splitWith), amount)
    {
      var n := |splitWith|;
      if n > 0 {
        var share := amount / (n as real);
        var i := 0;
        while i < n
          invariant 0 <= i <= n && |splitWith| == n
          invariant forall k :: 0 <= k < i ==> splitWith[k] == old(splitWith)[k].(amount := share)
          invariant forall k :: i <= k < n ==> splitWith[k] == old(splitWith)[k]
        {
          splitWith := splitWith[i := splitWith[i].(amount := share)];
          i := i + 1;
        }
      }
    }
  }

  /** What the user paid: the amounts of the expenses they paid for. */
  function Paid(es: seq<Expense>, u: UserId): real
  {
    if es == [] then 0.0
    else
      var e := es[|es| - 1];
      Paid(es[..|es| - 1], u) + (if e.paidBy == u then e.amount else 0.0)
  }

  /** What the user owes within one split list. */
  function OwedIn(splits: seq<Split>, u: UserId): real
  {
    if splits == [] then 0.0
    else
      var s := splits[|splits| - 1];
      OwedIn(splits[..|splits| - 1], u) + (if s.user == u then s.amount else 0.0)
  }

  /** What the user owes: every split naming them, the payer's own included. */
  function Owes(es: seq<Expense>, u: UserId): real
    reads es
  {
    if es == [] then 0.0 else Owes(es[..|es| - 1], u) + OwedIn(es[|es| - 1].splitWith, u)
  }

  /** Paid minus owed. */
  function Net(es: seq<Expense>, u: UserId): real
    reads es
  {
    Paid(es, u) - Owes(es, u)
  }

  function SplitUsers(splits: seq<Split>): set<UserId>
  {
    set i | 0 <= i < |splits| :: splits[i].user
  }

  /** Everyone who paid for, or is named in a split of, some expense. */
  function Participants(es: seq<Expense>): set<UserId>
    reads es
  {
    if es == [] then {}
    else
      var e := es[|es| - 1];
      Participants(es[..|es| - 1]) + {e.paidBy} + SplitUsers(e.splitWith)
  }

  lemma SplitUsersSnoc(splits: seq<Split>, j: nat)
    requires j < |splits|
    ensures SplitUsers(splits[..j + 1]) == SplitUsers(splits[..j]) + {splits[j].user}
  {
    var a, b := splits[..j], splits[..j + 1];
    forall x | x in SplitUsers(b) ensures x in SplitUsers(a) + {splits[j].user} {
      var k :| 0 <= k < j + 1 && b[k].user == x;
      if k < j { assert a[k] == b[k]; }
    }
    forall x | x in SplitUsers(a) ensures x in SplitUsers(b) {
      var k :| 0 <= k < j && a[k].user == x;
      assert b[k] == a[k];
    }
    assert b[j].user == splits[j].user;
  }

  lemma {:induction false} OwedInOutsider(splits: seq<Split>, u: UserId)
    requires u !in SplitUsers(splits)
    ensures OwedIn(splits, u) == 0.0
  {
    if splits != [] {
      SplitUsersSnoc(splits, |splits| - 1);
      assert splits[..|splits|] == splits;
      OwedInOutsider(splits[..|splits| - 1], u);
    }
  }

  /** Someone who takes no part in any expense has paid and owes nothing. */
  lemma {:induction false} OutsiderHasNothing(es: seq<Expense>, u: UserId)
    requires u !in Participants(es)
    ensures Paid(es, u) == 0.0 && Owes(es, u) == 0.0
  {
    if es != [] {
      OutsiderHasNothing(es[..|es| - 1], u);
      OwedInOutsider(es[|es| - 1].splitWith, u);
    }
  }

  /** The `balances` object of `calculateBalances`: its entries by user
      and the order in which its keys were added. */
  datatype Sheet = Sheet(entries: map<UserId, Totals>, order: seq<UserId>)

  /** The keys in `order` are distinct and are exactly the entries, each
      entry being labelled with its own user. */
  ghost predicate WellFormed(sh: Sheet)
  {
    && Distinct(sh.order)
    && (forall u :: u in sh.order <==> u in sh.entries)
    && (forall u :: u in sh.entries ==> sh.entries[u].user == u)
  }

  /** `if (!balances[id]) balances[id] = {…zeroes}`. */
  function Enter(sh: Sheet, u: UserId): (r: Sheet)
    ensures u in r.entries
  {
    if u in sh.entries then sh
    else Sheet(sh.entries[u := Totals(u, 0.0, 0.0, 0.0)], sh.order + [u])
  }

  /** `balances[id].paid += amount`. */
  function Credit(sh: Sheet, u: UserId, amount: real): Sheet
    requires u in sh.entries
  {
    sh.(entries := sh.entries[u := sh.entries[u].(paid := sh.entries[u].paid + amount)])
  }

  /** `balances[id].owes += amount`. */
  function Charge(sh: Sheet, u: UserId, amount: real): Sheet
    requires u in sh.entries
  {
    sh.(entries := sh.entries[u := sh.entries[u].(owes := sh.entries[u].owes + amount)])
  }

  /** The inner `splitWith.forEach`: enter and charge each split user. */
  function ChargeAll(sh: Sheet, splits: seq<Split>): Sheet
  {
    if splits == [] then sh
    else
      var s := splits[|splits| - 1];
      Charge(Enter(ChargeAll(sh, splits[..|splits| - 1]), s.user), s.user, s.amount)
  }

  /** One pass of the outer `expenses.forEach`. */
  function FoldExpense(sh: Sheet, e: Expense): Sheet
    reads e
  {
    ChargeAll(Credit(Enter(sh, e.paidBy), e.paidBy, e.amount), e.splitWith)
  }

  /** Entering a user keeps every entry and adds a zeroed one for a
      newcomer, appending its key. */
  lemma EnterFacts(sh: Sheet, u: UserId)
    ensures WellFormed(sh) ==> WellFormed(Enter(sh, u))
    ensures Enter(sh, u).entries.Keys == sh.entries.Keys + {u}
    ensures forall x :: x in sh.entries ==> Enter(sh, u).entries[x] == sh.entries[x]
    ensures u !in sh.entries ==> Enter(sh, u).entries[u] == Totals(u, 0.0, 0.0, 0.0)
  {
  }

  /** Crediting or charging a user touches that user's entry only. */
  lemma UpdateFacts(sh: Sheet, u: UserId, amount: real)
    requires u in sh.entries
    ensures WellFormed(sh) ==> WellFormed(Credit(sh, u, amount)) && WellFormed(Charge(sh, u, amount))
    ensures Credit(sh, u, amount).entries.Keys == sh.entries.Keys == Charge(sh, u, amount).entries.Keys
    ensures forall x :: x in sh.entries && x != u ==>
              Credit(sh, u, amount).entries[x] == sh.entries[x] == Charge(sh, u, amount).entries[x]
    ensures Credit(sh, u, amount).entries[u] == sh.entries[u].(paid := sh.entries[u].paid + amount)
    ensures Charge(sh, u, amount).entries[u] == sh.entries[u].(owes := sh.entries[u].owes + amount)
  {
  }

  lemma {:induction false} ChargeAllWellFormed(sh: Sheet, splits: seq<Split>)
    requires WellFormed(sh)
    ensures WellFormed(ChargeAll(sh, splits))
  {
    if splits != [] {
      var s := splits[|splits| - 1];
      ChargeAllWellFormed(sh, splits[..|splits| - 1]);
      var entered := Enter(ChargeAll(sh, splits[..|splits| - 1]), s.user);
      EnterFacts(ChargeAll(sh, splits[..|splits| - 1]), s.user);
      UpdateFacts(entered, s.user, s.amount);
    }
  }

  /** The `balances` object once every expense is folded in; its keys are
      distinct and name their own entries. */
  function Fold(es: seq<Expense>): (r: Sheet)
    reads es
    ensures WellFormed(r)
  {
    if es == [] then Sheet(map[], [])
    else
      var prev, e := Fold(es[..|es| - 1]), es[|es| - 1];
      EnterFacts(prev, e.paidBy);
      UpdateFacts(Enter(prev, e.paidBy), e.paidBy, e.amount);
      ChargeAllWellFormed(Credit(Enter(prev, e.paidBy), e.paidBy, e.amount), e.splitWith);
      FoldExpense(prev, e)
  }

  /** What `calculateBalances` returns: the entries in key order, each with
      its balance set to paid minus owed. */
  function Balances(es: seq<Expense>): (r: seq<Totals>)
    reads es
    ensures |r| == |Fold(es).order|
    ensures forall k :: 0 <= k < |r| ==> r[k].user == Fold(es).order[k]
  {
    var sh := Fold(es);
    assert forall k :: 0 <= k < |sh.order| ==> sh.order[k] in sh.order;
    seq(|sh.order|, k requires 0 <= k < |sh.order| && WellFormed(sh) =>
      var t := sh.entries[sh.order[k]]; t.(balance := t.paid - t.owes))
  }

  /** After charging a split list, an entry holds what it held before
      (zeroes for a newcomer) plus what the list charges that user. */
  lemma {:induction false} ChargeAllTotals(sh: Sheet, splits: seq<Split>, u: UserId)
    requires WellFormed(sh)
    ensures u in ChargeAll(sh, splits).entries <==> u in sh.entries || u in SplitUsers(splits)
    ensures u in ChargeAll(sh, splits).entries ==>
              var base := if u in sh.entries then sh.entries[u] else Totals(u, 0.0, 0.0, 0.0);
              ChargeAll(sh, splits).entries[u] == base.(owes := base.owes + OwedIn(splits, u))
  {
    if splits != [] {
      var n := |splits| - 1;
      var s := splits[n];
      SplitUsersSnoc(splits, n);
      assert splits[..n + 1] == splits;
      ChargeAllTotals(sh, splits[..n], u);
      var prev := ChargeAll(sh, splits[..n]);
      var entered := Enter(prev, s.user);
      EnterFacts(prev, s.user);
      UpdateFacts(entered, s.user, s.amount);
      ChargeAllWellFormed(sh, splits[..n]);
      assert ChargeAll(sh, splits) == Charge(entered, s.user, s.amount);
      assert OwedIn(splits, u) == OwedIn(splits[..n], u) + (if s.user == u then s.amount else 0.0);
      if u == s.user && u !in prev.entries {
        OwedInOutsider(splits[..n], u);
      }
    }
  }

  /** The folded object has an entry for every participant and no one
      else, holding what that user paid and owes. */
  lemma {:induction false} FoldTotals(es: seq<Expense>, u: UserId)
    ensures u in Fold(es).entries <==> u in Participants(es)
    ensures u in Fold(es).entries ==> Fold(es).entries[u] == Totals(u, Paid(es, u), Owes(es, u), 0.0)
  {
    if es != [] {
      var init, e := es[..|es| - 1], es[|es| - 1];
      FoldTotals(init, u);
      var entered := Enter(Fold(init), e.paidBy);
      var credited := Credit(entered, e.paidBy, e.amount);
      EnterFacts(Fold(init), e.paidBy);
      UpdateFacts(entered, e.paidBy, e.amount);
      assert Fold(es) == ChargeAll(credited, e.splitWith);
      ChargeAllTotals(credited, e.splitWith, u);
      if u !in Participants(init) {
        OutsiderHasNothing(init, u);
      }
      if u in credited.entries {
        assert credited.entries[u] == Totals(u, Paid(es, u), Owes(init, u), 0.0);
      }
    }
  }

  /** Every participant has exactly one row, and nobody else has one. */
  lemma BalancesCoverParticipants(es: seq<Expense>, u: UserId)
    ensures u in Participants(es) <==> exists k :: 0 <= k < |Balances(es)| && Balances(es)[k].user == u
    ensures forall k, l :: 0 <= k < l < |Balances(es)| ==> Balances(es)[k].user != Balances(es)[l].user
  {
    FoldTotals(es, u);
    var order := Fold(es).order;
    if u in Participants(es) {
      var k :| 0 <= k < |order| && order[k] == u;
      assert Balances(es)[k].user == u;
    }
  }

  /** Each row holds what its user paid and owes, and the difference. */
  lemma BalanceRow(es: seq<Expense>, k: nat)
    requires k < |Balances(es)|
    ensures var u := Balances(es)[k].user;
            Balances(es)[k] == Totals(u, Paid(es, u), Owes(es, u), Net(es, u))
  {
    FoldTotals(es, Fold(es).order[k]);
  }

  /** The inner `splitWith.forEach` of `calculateBalances`. */
  method ChargeSplits(entries0: map<UserId, Totals>, order0: seq<UserId>, splits: seq<Split>)
    returns (entries: map<UserId, Totals>, order: seq<UserId>)
    ensures Sheet(entries, order) == ChargeAll(Sheet(entries0, order0), splits)
  {
    entries, order := entries0, order0;
    var j := 0;
    while j < |splits|
      invariant 0 <= j <= |splits|
      invariant Sheet(entries, order) == ChargeAll(Sheet(entries0, order0), splits[..j])
    {
      var s := splits[j];
      assert splits[..j + 1][..j] == splits[..j] && splits[..j + 1][j] == s;
      ghost var prev := Sheet(entries, order);
      if s.user !in entries {
        entries := entries[s.user := Totals(s.user, 0.0, 0.0, 0.0)];
        order := order + [s.user];
      }
      assert Sheet(entries, order) == Enter(prev, s.user);
      entries := entries[s.user := entries[s.user].(owes := entries[s.user].owes + s.amount)];
      j := j + 1;
    }
    assert splits[..j] == splits;
  }

  /** The payer's part of one expense: a zeroed entry for a newcomer,
      then `paid` grows by the amount. */
  method CreditPayer(entries0: map<UserId, Totals>, order0: seq<UserId>, payer: UserId, amount: real)
    returns (entries: map<UserId, Totals>, order: seq<UserId>)
    ensures Sheet(entries, order) == Credit(Enter(Sheet(entries0, order0), payer), payer, amount)
  {
    entries, order := entries0, order0;
    if payer !in entries {
      entries := entries[payer := Totals(payer, 0.0, 0.0, 0.0)];
      order := order + [payer];
    }
    entries := entries[payer := entries[payer].(paid := entries[payer].paid + amount)];
  }

  /** The outer `expenses.forEach` of `calculateBalances`. */
  method FoldAll(es: seq<Expense>) returns (entries: map<UserId, Totals>, order: seq<UserId>)
    ensures Sheet(entries, order) == Fold(es)
  {
    entries, order := map[], [];
    var i := 0;
    while i < |es|
      invariant 0 <= i <= |es|
      invariant Sheet(entries, order) == Fold(es[..i])
    {
      var e := es[i];
      assert es[..i + 1][..i] == es[..i] && es[..i + 1][i] == e;
      ghost var prev := Sheet(entries, order);
      entries, order := CreditPayer(entries, order, e.paidBy, e.amount);
      entries, order := ChargeSplits(entries, order, e.splitWith);
      assert Sheet(entries, order) == FoldExpense(prev, e) == Fold(es[..i + 1]);
      i := i + 1;
    }
    assert es[..i] == es;
  }

  /** `calculateBalances`: fold every expense into the `balances` object,
      then set every balance and list the entries in key order. */
  method CalculateBalances(es: seq<Expense>) returns (rows: seq<Totals>)
    ensures rows == Balances(es)
  {
    var entries, order := FoldAll(es);
    assert WellFormed(Sheet(entries, order));
    rows := [];
    var k := 0;
    while k < |order|
      invariant 0 <= k <= |order| && |rows| == k
      invariant forall l :: 0 <= l < k ==> rows[l] == Balances(es)[l]
      invariant forall x :: x in order ==> x in entries
    {
      assert order[k] in order;
      var t := entries[order[k]];
      rows := rows + [t.(balance := t.paid - t.owes)];
      k := k + 1;
    }
  }

  /** Appending one expense adds its own terms and nothing else. */
  lemma SnocPaid(es: seq<Expense>, e: Expense)
    ensures forall u :: Paid(es + [e], u) == Paid(es, u) + (if e.paidBy == u then e.amount else 0.0)
  {
    assert (es + [e])[..|es|] == es;
  }

  lemma SnocOwes(es: seq<Expense>, e: Expense)
    ensures forall u :: Owes(es + [e], u) == Owes(es, u) + OwedIn(e.splitWith, u)
  {
    assert (es + [e])[..|es|] == es;
  }

  lemma SnocOrder(es: seq<Expense>, e: Expense)
    ensures Participants(es + [e]) == Participants(es) + {e.paidBy} + SplitUsers(e.splitWith)
  {
    assert (es + [e])[..|es|] == es;
  }

  /** The sum of the expense amounts. */
  function TotalAmount(es: seq<Expense>): real
  {
    if es == [] then 0.0 else TotalAmount(es[..|es| - 1]) + es[|es| - 1].amount
  }

  /** The sum of every split of every expense. */
  function TotalSplit(es: seq<Expense>): real
    reads es
  {
    if es == [] then 0.0 else TotalSplit(es[..|es| - 1]) + SplitTotal(es[|es| - 1].splitWith)
  }

  /** The sum of the balances of a list of rows. */
  function BalanceSum(rows: seq<Totals>): real
  {
    if rows == [] then 0.0 else rows[0].balance + BalanceSum(rows[1..])
  }

  function SumNet(ids: seq<UserId>, es: seq<Expense>): real
    reads es
  {
    if ids == [] then 0.0 else Net(es, ids[0]) + SumNet(ids[1..], es)
  }

  function SumOwedIn(ids: seq<UserId>, splits: seq<Split>): real
  {
    if ids == [] then 0.0 else OwedIn(splits, ids[0]) + SumOwedIn(ids[1..], splits)
  }

  lemma {:induction false} SumNetEmpty(ids: seq<UserId>)
    ensures SumNet(ids, []) == 0.0
  {
    if ids != [] {
      SumNetEmpty(ids[1..]);
    }
  }

  lemma {:induction false} SumNetSnoc(ids: seq<UserId>, es: seq<Expense>, e: Expense)
    ensures SumNet(ids, es + [e]) == SumNet(ids, es) + Indicator(ids, e.paidBy, e.amount) - SumOwedIn(ids, e.splitWith)
  {
    SnocPaid(es, e);
    SnocOwes(es, e);
    if ids != [] {
      SumNetSnoc(ids[1..], es, e);
    }
  }

  lemma {:induction false} SumOwedInSnoc(ids: seq<UserId>, splits: seq<Split>, s: Split)
    ensures SumOwedIn(ids, splits + [s]) == SumOwedIn(ids, splits) + Indicator(ids, s.user, s.amount)
  {
    assert (splits + [s])[..|splits|] == splits;
    if ids != [] {
      SumOwedInSnoc(ids[1..], splits, s);
    }
  }

  /** Over distinct users covering a split list, the owed amounts add up to
      the split total. */
  lemma {:induction false} SumOwedInTotal(ids: seq<UserId>, splits: seq<Split>)
    requires Distinct(ids)
    requires forall u :: u in SplitUsers(splits) ==> u in ids
    ensures SumOwedIn(ids, splits) == SplitTotal(splits)
  {
    if splits == [] {
      SumOwedInEmpty(ids);
    } else {
      var n := |splits| - 1;
      SplitUsersSnoc(splits, n);
      assert splits[..n + 1] == splits;
      assert splits[..n] + [splits[n]] == splits;
      SumOwedInTotal(ids, splits[..n]);
      SumOwedInSnoc(ids, splits[..n], splits[n]);
      IndicatorValue(ids, splits[n].user, splits[n].amount);
    }
  }

  lemma {:induction false} SumOwedInEmpty(ids: seq<UserId>)
    ensures SumOwedIn(ids, []) == 0.0
  {
    if ids != [] {
      SumOwedInEmpty(ids[1..]);
    }
  }

  /** Over distinct users covering every participant, the balances add up
      to what was paid minus what was split. */
  lemma {:induction false} NetSumsToUnsplit(ids: seq<UserId>, es: seq<Expense>)
    requires Distinct(ids)
    requires forall u :: u in Participants(es) ==> u in ids
    ensures SumNet(ids, es) == TotalAmount(es) - TotalSplit(es)
  {
    if es == [] {
      SumNetEmpty(ids);
    } else {
      var init, e := es[..|es| - 1], es[|es| - 1];
      assert init + [e] == es;
      SnocOrder(init, e);
      NetSumsToUnsplit(ids, init);
      SumNetSnoc(ids, init, e);
      IndicatorValue(ids, e.paidBy, e.amount);
      SumOwedInTotal(ids, e.splitWith);
    }
  }

  lemma {:induction false} BalanceSumIsSumNet(rows: seq<Totals>, ids: seq<UserId>, es: seq<Expense>)
    requires |rows| == |ids|
    requires forall k :: 0 <= k < |rows| ==> rows[k].balance == Net(es, ids[k])
    ensures BalanceSum(rows) == SumNet(ids, es)
  {
    if rows != [] {
      BalanceSumIsSumNet(rows[1..], ids[1..], es);
    }
  }

  /** When every expense is split exactly over its amount (as
      `calculateShares` leaves it), the balances add up to zero: what some
      are owed, others owe. */
  lemma BalancesSumToZero(es: seq<Expense>)
    requires forall k :: 0 <= k < |es| ==> SplitTotal(es[k].splitWith) == es[k].amount
    ensures BalanceSum(Balances(es)) == 0.0
  {
    var ids := Fold(es).order;
    forall k | 0 <= k < |ids| ensures Balances(es)[k].balance == Net(es, ids[k]) {
      BalanceRow(es, k);
    }
    forall u | u in Participants(es) ensures u in ids {
      FoldTotals(es, u);
    }
    BalanceSumIsSumNet(Balances(es), ids, es);
    NetSumsToUnsplit(ids, es);
    ExactSplits(es);
  }

  lemma {:induction false} ExactSplits(es: seq<Expense>)
    requires forall k :: 0 <= k < |es| ==> SplitTotal(es[k].splitWith) == es[k].amount
    ensures TotalAmount(es) == TotalSplit(es)
  {
    if es != [] {
      ExactSplits(es[..|es| - 1]);
    }
  }

  /** Balances over two batches of expenses add up user by user. */
  lemma {:induction false} NetAdds(a: seq<Expense>, b: seq<Expense>, u: UserId)
    ensures Net(a + b, u) == Net(a, u) + Net(b, u)
    ensures Participants(a + b) == Participants(a) + Participants(b)
  {
    if b == [] {
      assert a + b == a;
    } else {
      var init, e := b[..|b| - 1], b[|b| - 1];
      assert a + b == (a + init) + [e];
      assert init + [e] == b;
      SnocPaid(a + init, e);
      SnocOwes(a + init, e);
      SnocOrder(a + init, e);
      SnocPaid(init, e);
      SnocOwes(init, e);
      SnocOrder(init, e);
      NetAdds(a, init, u);
    }
  }
}
