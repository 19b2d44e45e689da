/** The client-side logic of src/components/Dashboard.jsx: the balance
    table over the roommate list, the summary figures, the split-with
    toggle, the id-based list updates and the roommate form. */
module Dashboard {
  import opened Common
  import opened Text

  datatype Roommate = Roommate(id: int, name: string, email: string, avatar: string, role: string)

  /** An expense as the dashboard holds it. */
  datatype Bill = Bill(id: int, amount: real, paidBy: int, splitWith: seq<int>)

  /** A chore card; only the id and the flag matter here. */
  datatype Card = Card(id: int, title: string, completed: bool)

  /** One row of the balance table. */
  datatype Entry = Entry(name: string, paid: real, owes: real, balance: real)

  function RoommateId(r: Roommate): int { r.id }
  function BillId(b: Bill): int { b.id }
  function CardId(c: Card): int { c.id }

  function RoommateIds(rms: seq<Roommate>): set<int>
  {
    set i | 0 <= i < |rms| :: rms[i].id
  }

  /** The name the table shows for `id`: the last roommate with that id
      wins, as later assignments overwrite earlier ones. */
  function NameOf(rms: seq<Roommate>, id: int): string
  {
    if rms == [] then ""
    else if rms[|rms| - 1].id == id then rms[|rms| - 1].name
    else NameOf(rms[..|rms| - 1], id)
  }

  /** `amount / splitWith.length`; only used when the list is non-empty. */
  function Share(b: Bill): real
  {
    if |b.splitWith| == 0 then 0.0 else b.amount / (|b.splitWith| as real)
  }

  /** What `u` owes under one split list: a share per occurrence. */
  function SharesOf(xs: seq<int>, u: int, per: real): real
  {
    if xs == [] then 0.0
    else SharesOf(xs[..|xs| - 1], u, per) + (if xs[|xs| - 1] == u then per else 0.0)
  }

  /** What `u` paid: the amounts of the bills `u` paid. */
  function PaidBy(bs: seq<Bill>, u: int): real
  {
    if bs == [] then 0.0
    else
      var b := bs[|bs| - 1];
      PaidBy(bs[..|bs| - 1], u) + (if b.paidBy == u then b.amount else 0.0)
  }

  /** What `u` owes: one share per occurrence in a bill's split list. */
  function OwedBy(bs: seq<Bill>, u: int): real
  {
    if bs == [] then 0.0
    else
      var b := bs[|bs| - 1];
      OwedBy(bs[..|bs| - 1], u) + SharesOf(b.splitWith, u, Share(b))
  }

  /** Every payer and every split id is a roommate; otherwise the source
      reads a property of `undefined` and throws. */
  predicate Covered(rms: seq<Roommate>, bs: seq<Bill>)
  {
    forall k :: 0 <= k < |bs| ==>
      bs[k].paidBy in RoommateIds(rms) && forall j :: 0 <= j < |bs[k].splitWith| ==> bs[k].splitWith[j] in RoommateIds(rms)
  }

  /** The row the table holds for roommate `id`. */
  function RowOf(rms: seq<Roommate>, bs: seq<Bill>, id: int): Entry
  {
    Entry(NameOf(rms, id), PaidBy(bs, id), OwedBy(bs, id), PaidBy(bs, id) - OwedBy(bs, id))
  }

  /** The first loop of `calculateBalances`: a zero row per roommate. */
  method ZeroRows(rms: seq<Roommate>) returns (table: map<int, Entry>)
    ensures table.Keys == RoommateIds(rms)
    ensures forall id :: id in table ==> table[id] == Entry(NameOf(rms, id), 0.0, 0.0, 0.0)
  {
    table := map[];
    var i := 0;
    while i < |rms|
      invariant 0 <= i <= |rms|
      invariant table.Keys == RoommateIds(rms[..i])
      invariant forall id :: id in table ==> table[id] == Entry(NameOf(rms[..i], id), 0.0, 0.0, 0.0)
    {
      assert rms[..i + 1][..i] == rms[..i];
      assert RoommateIds(rms[..i + 1]) == RoommateIds(rms[..i]) + {rms[i].id} by {
        assert forall k :: 0 <= k < i ==> rms[..i + 1][k] == rms[..i][k];
      }
      table := table[rms[i].id := Entry(rms[i].name, 0.0, 0.0, 0.0)];
      i := i + 1;
    }
    assert rms[..i] == rms;
  }

  /** The inner loop: each id of the split list owes one more share. */
  method ChargeShares(table0: map<int, Entry>, xs: seq<int>, per: real) returns (table: map<int, Entry>)
    requires forall j :: 0 <= j < |xs| ==> xs[j] in table0
    ensures table.Keys == table0.Keys
    ensures forall id :: id in table ==>
              table[id] == table0[id].(owes := table0[id].owes + SharesOf(xs, id, per))
  {
    table := table0;
    var j := 0;
    while j < |xs|
      invariant 0 <= j <= |xs|
      invariant table.Keys == table0.Keys
      invariant forall id :: id in table ==>
                  table[id] == table0[id].(owes := table0[id].owes + SharesOf(xs[..j], id, per))
    {
      assert xs[..j + 1][..j] == xs[..j] && xs[..j + 1][j] == xs[j];
      var row := table[xs[j]];
      table := table[xs[j] := row.(owes := row.owes + per)];
      j := j + 1;
    }
    assert xs[..j] == xs;
  }

  lemma OneMoreShare(n: nat, per: real)
    ensures ((n + 1) as real) * per == (n as real) * per + per
  {
  }

  /** The second loop: each bill credits its payer and charges its split list. */
  method ApplyBills(rms: seq<Roommate>, bs: seq<Bill>, table0: map<int, Entry>) returns (table: map<int, Entry>)
    requires Covered(rms, bs)
    requires table0.Keys == RoommateIds(rms)
    requires forall id :: id in table0 ==> table0[id] == Entry(NameOf(rms, id), 0.0, 0.0, 0.0)
    ensures table.Keys == RoommateIds(rms)
    ensures forall id :: id in table ==> table[id] == Entry(NameOf(rms, id), PaidBy(bs, id), OwedBy(bs, id), 0.0)
  {
    table := table0;
    var k := 0;
    while k < |bs|
      invariant 0 <= k <= |bs|
      invariant table.Keys == RoommateIds(rms)
      invariant forall id :: id in table ==>
                  table[id] == Entry(NameOf(rms, id), PaidBy(bs[..k], id), OwedBy(bs[..k], id), 0.0)
    {
      var b := bs[k];
      assert bs[..k + 1][..k] == bs[..k] && bs[..k + 1][k] == b;
      var payer := table[b.paidBy];
      var credited := table[b.paidBy := payer.(paid := payer.paid + b.amount)];
      assert forall id :: id in credited ==>
               credited[id] == Entry(NameOf(rms, id), PaidBy(bs[..k + 1], id), OwedBy(bs[..k], id), 0.0);
      table := ChargeShares(credited, b.splitWith, Share(b));
      assert forall id :: id in table ==>
               OwedBy(bs[..k + 1], id) == OwedBy(bs[..k], id) + SharesOf(b.splitWith, id, Share(b));
      k := k + 1;
    }
    assert bs[..k] == bs;
  }

  /** The last loop: every row's balance becomes paid minus owes. */
  method SettleRows(rms: seq<Roommate>, table0: map<int, Entry>) returns (table: map<int, Entry>)
    requires table0.Keys == RoommateIds(rms)
    ensures table.Keys == table0.Keys
    ensures forall id :: id in table ==> table[id] == table0[id].(balance := table0[id].paid - table0[id].owes)
  {
    table := table0;
    var i := 0;
    while i < |rms|
      invariant 0 <= i <= |rms|
      invariant table.Keys == table0.Keys
      invariant forall id :: id in table ==>
                  table[id] == (if id in RoommateIds(rms[..i]) then table0[id].(balance := table0[id].paid - table0[id].owes)
                                else table0[id])
    {
      assert RoommateIds(rms[..i + 1]) == RoommateIds(rms[..i]) + {rms[i].id} by {
        assert forall k :: 0 <= k < i ==> rms[..i + 1][k] == rms[..i][k];
        assert rms[..i + 1][i] == rms[i];
      }
      var row := table0[rms[i].id];
      table := table[rms[i].id := row.(balance := row.paid - row.owes)];
      i := i + 1;
    }
    assert rms[..i] == rms;
  }

  /** `calculateBalances`: one row per roommate, zero rows included; each
      row holds what the roommate paid, what they owe, and the difference. */
  method CalculateBalances(rms: seq<Roommate>, bs: seq<Bill>) returns (table: map<int, Entry>)
    requires Covered(rms, bs)
    ensures table.Keys == RoommateIds(rms)
    ensures forall id :: id in table ==> table[id] == RowOf(rms, bs, id)
  {
    table := ZeroRows(rms);
    table := ApplyBills(rms, bs, table);
    table := SettleRows(rms, table);
  }

  /** The sum of the net positions over a list of ids. */
  function NetSum(ids: seq<int>, bs: seq<Bill>): real
  {
    if ids == [] then 0.0 else PaidBy(bs, ids[0]) - OwedBy(bs, ids[0]) + NetSum(ids[1..], bs)
  }

  /** Over a list of ids, the shares owed for one split list. */
  function ShareSum(ids: seq<int>, xs: seq<int>, share: real): real
  {
    if ids == [] then 0.0 else SharesOf(xs, ids[0], share) + ShareSum(ids[1..], xs, share)
  }

  lemma {:induction false} NetSumEmpty(ids: seq<int>)
    ensures NetSum(ids, []) == 0.0
  {
    if ids != [] {
      NetSumEmpty(ids[1..]);
    }
  }

  lemma {:induction false} NetSumSnoc(ids: seq<int>, bs: seq<Bill>, b: Bill)
    ensures NetSum(ids, bs + [b]) == NetSum(ids, bs) + Indicator(ids, b.paidBy, b.amount) - ShareSum(ids, b.splitWith, Share(b))
  {
    assert (bs + [b])[..|bs|] == bs;
    if ids != [] {
      NetSumSnoc(ids[1..], bs, b);
    }
  }

  lemma {:induction false} ShareSumEmpty(ids: seq<int>, share: real)
    ensures ShareSum(ids, [], share) == 0.0
  {
    if ids != [] {
      ShareSumEmpty(ids[1..], share);
    }
  }

  lemma {:induction false} ShareSumSnoc(ids: seq<int>, xs: seq<int>, x: int, share: real)
    ensures ShareSum(ids, xs + [x], share) == ShareSum(ids, xs, share) + Indicator(ids, x, share)
  {
    assert (xs + [x])[..|xs|] == xs;
    if ids != [] {
      ShareSumSnoc(ids[1..], xs, x, share);
    }
  }

  /** Over distinct ids that include every entry of `xs`, one share is
      counted per entry. */
  lemma {:induction false} ShareSumTotal(ids: seq<int>, xs: seq<int>, share: real)
    requires Distinct(ids)
    requires forall j :: 0 <= j < |xs| ==> xs[j] in ids
    ensures ShareSum(ids, xs, share) == (|xs| as real) * share
  {
    if xs == [] {
      ShareSumEmpty(ids, share);
    } else {
      var init, x := xs[..|xs| - 1], xs[|xs| - 1];
      assert init + [x] == xs;
      ShareSumTotal(ids, init, share);
      ShareSumSnoc(ids, init, x, share);
      IndicatorValue(ids, x, share);
      OneMoreShare(|init|, share);
    }
  }

  function TotalOf(bs: seq<Bill>): real
  {
    if bs == [] then 0.0 else TotalOf(bs[..|bs| - 1]) + bs[|bs| - 1].amount
  }

  /** Summed over distinct ids covering the bills, net positions add up to
      the total spent minus the total shared out. */
  lemma {:induction false} NetSumIsUnshared(ids: seq<int>, bs: seq<Bill>)
    requires Distinct(ids)
    requires forall k :: 0 <= k < |bs| ==> bs[k].paidBy in ids && forall j :: 0 <= j < |bs[k].splitWith| ==> bs[k].splitWith[j] in ids
    requires forall k :: 0 <= k < |bs| ==> |bs[k].splitWith| > 0
    ensures NetSum(ids, bs) == 0.0
  {
    if bs == [] {
      NetSumEmpty(ids);
    } else {
      var init, b := bs[..|bs| - 1], bs[|bs| - 1];
      assert init + [b] == bs;
      NetSumIsUnshared(ids, init);
      NetSumSnoc(ids, init, b);
      IndicatorValue(ids, b.paidBy, b.amount);
      ShareSumTotal(ids, b.splitWith, Share(b));
      var n := |b.splitWith| as real;
      assert n * (b.amount / n) == b.amount;
    }
  }

  /** With a non-empty split list on every bill, the balance column sums
      to zero over the roommates (each roommate id counted once). */
  lemma BalancesSumToZero(rms: seq<Roommate>, bs: seq<Bill>, ids: seq<int>)
    requires Covered(rms, bs)
    requires forall k :: 0 <= k < |bs| ==> |bs[k].splitWith| > 0
    requires Distinct(ids) && (set k | 0 <= k < |ids| :: ids[k]) == RoommateIds(rms)
    ensures NetSum(ids, bs) == 0.0
  {
    forall x | x in RoommateIds(rms) ensures x in ids {
      var k :| 0 <= k < |ids| && ids[k] == x;
    }
    NetSumIsUnshared(ids, bs);
  }

  /** `expenses.reduce((sum, e) => sum + e.amount, 0)`: the total adds up
      over any division of the list. */
  lemma {:induction false} TotalAdds(a: seq<Bill>, b: seq<Bill>)
    ensures TotalOf(a + b) == TotalOf(a) + TotalOf(b)
  {
    if b == [] {
      assert a + b == a;
    } else {
      assert (a + b)[..|a + b| - 1] == a + b[..|b| - 1];
      TotalAdds(a, b[..|b| - 1]);
    }
  }

  /** Every amount spent is paid by some roommate: over distinct ids
      covering the payers, the paid column sums to the total. */
  function PaidSum(ids: seq<int>, bs: seq<Bill>): real
  {
    if ids == [] then 0.0 else PaidBy(bs, ids[0]) + PaidSum(ids[1..], bs)
  }

  lemma {:induction false} PaidColumnIsTotal(ids: seq<int>, bs: seq<Bill>)
    requires Distinct(ids)
    requires forall k :: 0 <= k < |bs| ==> bs[k].paidBy in ids
    ensures PaidSum(ids, bs) == TotalOf(bs)
  {
    if bs == [] {
      PaidSumEmpty(ids);
    } else {
      var init, b := bs[..|bs| - 1], bs[|bs| - 1];
      PaidColumnIsTotal(ids, init);
      PaidSumSnoc(ids, init, b);
      assert init + [b] == bs;
      IndicatorValue(ids, b.paidBy, b.amount);
    }
  }

  lemma {:induction false} PaidSumEmpty(ids: seq<int>)
    ensures PaidSum(ids, []) == 0.0
  {
    if ids != [] {
      PaidSumEmpty(ids[1..]);
    }
  }

  lemma {:induction false} PaidSumSnoc(ids: seq<int>, bs: seq<Bill>, b: Bill)
    ensures PaidSum(ids, bs + [b]) == PaidSum(ids, bs) + Indicator(ids, b.paidBy, b.amount)
  {
    assert (bs + [b])[..|bs|] == bs;
    if ids != [] {
      PaidSumSnoc(ids[1..], bs, b);
    }
  }

  /** `chores.filter(c => c.completed).length`. */
  function CompletedCount(cs: seq<Card>): (r: nat)
    ensures r <= |cs|
    ensures r == |cs| <==> forall k :: 0 <= k < |cs| ==> cs[k].completed
    ensures r == 0 <==> forall k :: 0 <= k < |cs| ==> !cs[k].completed
  {
    if cs == [] then 0
    else
      var rest := CompletedCount(cs[..|cs| - 1]);
      assert forall k :: 0 <= k < |cs| - 1 ==> cs[..|cs| - 1][k] == cs[k];
      rest + (if cs[|cs| - 1].completed then 1 else 0)
  }

  /** `toggleSplitWith`: a present id is removed (every occurrence), an
      absent one appended. */
  function ToggleSplit(xs: seq<int>, id: int): (r: seq<int>)
    ensures id in xs ==> id !in r && forall x :: x in r <==> x in xs && x != id
    ensures id !in xs ==> r == xs + [id]
  {
    if id in xs then Drop(xs, Ident, id) else xs + [id]
  }

  function Ident(x: int): int { x }

  /** As a set, toggling the same id twice changes nothing; starting from
      a list without it, the list itself comes back. */
  lemma ToggleSplitTwice(xs: seq<int>, id: int)
    ensures forall x :: x in ToggleSplit(ToggleSplit(xs, id), id) <==> x in xs
    ensures id !in xs ==> ToggleSplit(ToggleSplit(xs, id), id) == xs
  {
    if id !in xs {
      assert id in xs + [id];
      forall j | 0 <= j < |xs| ensures Ident(xs[j]) != id { }
      DropAbsent(xs, Ident, id);
      DropSnocMatch(xs, id);
    }
  }

  /** Dropping an id from a list that ends with it drops that last entry. */
  lemma {:induction false} DropSnocMatch(xs: seq<int>, id: int)
    ensures Drop(xs + [id], Ident, id) == Drop(xs, Ident, id)
  {
    if xs == [] {
      assert [id][1..] == [];
    } else {
      assert (xs + [id])[1..] == xs[1..] + [id];
      DropSnocMatch(xs[1..], id);
    }
  }

  /** `chores.map(c => c.id === id ? updated : c)`. */
  function ReplaceCard(cs: seq<Card>, id: int, updated: Card): (r: seq<Card>)
    ensures |r| == |cs|
  {
    seq(|cs|, i requires 0 <= i < |cs| => if cs[i].id == id then updated else cs[i])
  }

  /** With distinct ids, replacing by the id of the chore at `i` changes
      that position and no other. */
  lemma ReplaceOnlyOne(cs: seq<Card>, i: nat, updated: Card)
    requires i < |cs| && Distinct(KeysOf(cs, CardId))
    ensures ReplaceCard(cs, cs[i].id, updated) == cs[i := updated]
  {
    forall j | 0 <= j < |cs| && j != i ensures cs[j].id != cs[i].id {
      if j < i {
        assert KeysOf(cs, CardId)[j] != KeysOf(cs, CardId)[i];
      } else {
        assert KeysOf(cs, CardId)[i] != KeysOf(cs, CardId)[j];
      }
    }
  }

  /** `name.split(' ').map(n => n[0]).join('').toUpperCase()`: an empty
      word contributes `undefined`, which `join` writes as nothing. */
  function Initials(words: seq<string>): string
  {
    if words == [] then ""
    else (if words[0] == "" then "" else [words[0][0]]) + Initials(words[1..])
  }

  function NameAvatar(name: string): string
  {
    ToUpper(Initials(Split(name, ' ')))
  }

  /** For a first and a last name joined by one space, the avatar is their
      two upper-cased initials. */
  lemma TwoWordAvatar(first: string, last: string)
    requires first != "" && last != "" && ' ' !in first && ' ' !in last
    ensures NameAvatar(first + " " + last) == [UpperChar(first[0]), UpperChar(last[0])]
  {
    SplitTwoWords(first, last, ' ');
    assert first + " " + last == first + [' '] + last;
    assert Initials([first, last]) == [first[0], last[0]] by {
      assert [first, last][1..] == [last] && [last][1..] == [];
      assert Initials([last]) == [last[0]];
    }
  }

  /** `addRoommate`: refused when name or email is empty; otherwise the
      roommate joins at the end as a member, identified by the clock. */
  function AddRoommate(rms: seq<Roommate>, name: string, email: string, now: int): (r: Option<seq<Roommate>>)
    ensures r.None? <==> name == "" || email == ""
    ensures r.Some? ==> r.value == rms + [Roommate(now, name, email, NameAvatar(name), "member")]
  {
    if name == "" || email == "" then None
    else Some(rms + [Roommate(now, name, email, NameAvatar(name), "member")])
  }
}
