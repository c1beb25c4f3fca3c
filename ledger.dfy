/** The ledger aggregation of the bookkeeping client: debit and credit totals
    per account as of a cutoff date, the income statement and the balance
    sheet derived from them by account-number prefix, and the profit.

    A booking's account fields are the JavaScript object keys the totals are
    filed under; the empty key stands for a falsy field (`null`, `""`), which
    posts nothing. Amounts are exact integers. */
module Ledger {

  datatype Booking = Booking(date: string, debit: string, credit: string, amount: int)

  datatype Totals = Totals(debit: int, credit: int)

  /** `a < b` on two strings: lexicographic order, character by character. */
  predicate Less(a: string, b: string) {
    if b == [] then false
    else if a == [] then true
    else if a[0] != b[0] then a[0] < b[0]
    else Less(a[1..], b[1..])
  }

  /** `key.startsWith(c)` for a one-character prefix. */
  predicate StartsWith(key: string, c: char) {
    |key| > 0 && key[0] == c
  }

  /** A booking takes part in the totals unless its date sorts after the cutoff. */
  predicate Included(b: Booking, cutoff: string) {
    !Less(cutoff, b.date)
  }

  // ---------------------------------------------------------------------
  // The string order used for dates

  lemma {:induction false} LessIrreflexive(a: string)
    ensures !Less(a, a)
  {
    if a != [] {
      LessIrreflexive(a[1..]);
    }
  }

  lemma {:induction false} LessTrichotomy(a: string, b: string)
    ensures a == b || Less(a, b) || Less(b, a)
    ensures !(Less(a, b) && Less(b, a))
  {
    if a != [] && b != [] && a[0] == b[0] {
      LessTrichotomy(a[1..], b[1..]);
      if a[1..] == b[1..] {
        assert a == [a[0]] + a[1..] && b == [b[0]] + b[1..];
      }
    }
  }

  lemma {:induction false} LessTransitive(a: string, b: string, c: string)
    requires Less(a, b) && Less(b, c)
    ensures Less(a, c)
  {
    if a != [] && a[0] == b[0] && b[0] == c[0] {
      LessTransitive(a[1..], b[1..], c[1..]);
    }
  }

  /** A booking dated exactly on the cutoff counts. */
  lemma BookingOnCutoffIncluded(b: Booking)
    ensures Included(b, b.date)
  {
    LessIrreflexive(b.date);
  }

  /** Moving the cutoff later never drops a booking. */
  lemma IncludedMonotone(b: Booking, earlier: string, later: string)
    requires Included(b, earlier)
    requires earlier == later || Less(earlier, later)
    ensures Included(b, later)
  {
    if Less(later, b.date) {
      if earlier == later {
      } else {
        LessTransitive(earlier, later, b.date);
      }
    }
  }

  // ---------------------------------------------------------------------
  // Accumulating totals (the `forEach` over the bookings)

  /** Adds to the totals of `key`, creating them at zero first; a falsy key
      posts nothing. */
  function Post(tot: map<string, Totals>, key: string, debit: int, credit: int): (r: map<string, Totals>)
    ensures key == "" ==> r == tot
    ensures key != "" ==> r.Keys == tot.Keys + {key}
    ensures forall k :: k in tot && k != key ==> k in r && r[k] == tot[k]
    ensures key != "" ==> var before := if key in tot then tot[key] else Totals(0, 0);
                          r[key] == Totals(before.debit + debit, before.credit + credit)
  {
    if key == "" then tot
    else
      var before := if key in tot then tot[key] else Totals(0, 0);
      tot[key := Totals(before.debit + debit, before.credit + credit)]
  }

  /** The debit and credit totals of every account named by a booking
      that is not after the cutoff, accumulated in list order. */
  function Tally(bs: seq<Booking>, cutoff: string): map<string, Totals>
    decreases |bs|
  {
    if bs == [] then map[]
    else
      var tot := Tally(bs[..|bs| - 1], cutoff);
      var b := bs[|bs| - 1];
      if !Included(b, cutoff) then tot
      else Post(Post(tot, b.debit, b.amount, 0), b.credit, 0, b.amount)
  }

  // Reference definitions, booking by booking

  /** Sum of the amounts of included bookings that debit `acc`. */
  function DebitSum(bs: seq<Booking>, cutoff: string, acc: string): int
    decreases |bs|
  {
    if bs == [] then 0
    else
      var b := bs[|bs| - 1];
      DebitSum(bs[..|bs| - 1], cutoff, acc) + (if Included(b, cutoff) && b.debit == acc then b.amount else 0)
  }

  /** Sum of the amounts of included bookings that credit `acc`. */
  function CreditSum(bs: seq<Booking>, cutoff: string, acc: string): int
    decreases |bs|
  {
    if bs == [] then 0
    else
      var b := bs[|bs| - 1];
      CreditSum(bs[..|bs| - 1], cutoff, acc) + (if Included(b, cutoff) && b.credit == acc then b.amount else 0)
  }

  /** Some included booking names `acc` on either side. */
  predicate Mentions(bs: seq<Booking>, cutoff: string, acc: string) {
    exists i :: 0 <= i < |bs| && Included(bs[i], cutoff) && (bs[i].debit == acc || bs[i].credit == acc)
  }

  /** The totals hold exactly the non-empty keys some included booking names,
      each with its debit sum and credit sum. */
  lemma {:induction false} TallyIsSums(bs: seq<Booking>, cutoff: string)
    ensures forall acc :: acc in Tally(bs, cutoff) <==> acc != "" && Mentions(bs, cutoff, acc)
    ensures forall acc :: acc in Tally(bs, cutoff) ==>
              Tally(bs, cutoff)[acc] == Totals(DebitSum(bs, cutoff, acc), CreditSum(bs, cutoff, acc))
    ensures forall acc :: acc != "" && acc !in Tally(bs, cutoff) ==>
              DebitSum(bs, cutoff, acc) == 0 && CreditSum(bs, cutoff, acc) == 0
  {
    if bs != [] {
      var front, b := bs[..|bs| - 1], bs[|bs| - 1];
      TallyIsSums(front, cutoff);
      forall acc
        ensures Mentions(bs, cutoff, acc) <==>
                  Mentions(front, cutoff, acc) || (Included(b, cutoff) && (b.debit == acc || b.credit == acc))
      {
        if Mentions(bs, cutoff, acc) {
          var i :| 0 <= i < |bs| && Included(bs[i], cutoff) && (bs[i].debit == acc || bs[i].credit == acc);
          if i < |front| {
            assert front[i] == bs[i];
          }
        }
        if Mentions(front, cutoff, acc) {
          var i :| 0 <= i < |front| && Included(front[i], cutoff) && (front[i].debit == acc || front[i].credit == acc);
          assert bs[i] == front[i];
        }
        if Included(b, cutoff) && (b.debit == acc || b.credit == acc) {
          assert bs[|bs| - 1] == b;
        }
      }
      forall acc | acc in Tally(front, cutoff) && acc !in Tally(bs, cutoff)
        ensures false
      {
      }
      assert "" !in Tally(front, cutoff);
      assert "" !in Tally(bs, cutoff);
    }
  }

  /** Bookings dated after the cutoff leave the totals as they were. */
  lemma LaterBookingIgnored(bs: seq<Booking>, b: Booking, cutoff: string)
    requires Less(cutoff, b.date)
    ensures Tally(bs + [b], cutoff) == Tally(bs, cutoff)
  {
    assert (bs + [b])[..|bs|] == bs;
  }

  // ---------------------------------------------------------------------
  // Statement and balance sheet

  /** The signed balances of the accounts whose key starts with `debitSide`
      (debit minus credit) or, failing that, with `creditSide` (credit minus
      debit); every other account is dropped. */
  function Signed(tot: map<string, Totals>, debitSide: char, creditSide: char): map<string, int>
  {
    map acc | acc in tot && (StartsWith(acc, debitSide) || StartsWith(acc, creditSide)) ::
      if StartsWith(acc, debitSide) then tot[acc].debit - tot[acc].credit
      else tot[acc].credit - tot[acc].debit
  }

  /** `calculateStatement(toDate)`: prefix 4 gives debit minus credit,
      prefix 3 credit minus debit; no cutoff gives no balances. */
  function Statement(bs: seq<Booking>, toDate: string): map<string, int>
  {
    if toDate == "" then map[] else Signed(Tally(bs, toDate), '4', '3')
  }

  /** `calculateBalances(dateLimit)`: prefix 1 gives debit minus credit,
      prefix 2 credit minus debit; no cutoff gives no balances. */
  function Balances(bs: seq<Booking>, dateLimit: string): map<string, int>
  {
    if dateLimit == "" then map[] else Signed(Tally(bs, dateLimit), '1', '2')
  }

  /** Which accounts the income statement lists and with which balance. */
  lemma StatementIsSums(bs: seq<Booking>, toDate: string, acc: string)
    ensures acc in Statement(bs, toDate) <==>
              toDate != "" && (StartsWith(acc, '3') || StartsWith(acc, '4')) && Mentions(bs, toDate, acc)
    ensures acc in Statement(bs, toDate) ==>
              Statement(bs, toDate)[acc] ==
                if StartsWith(acc, '4') then DebitSum(bs, toDate, acc) - CreditSum(bs, toDate, acc)
                else CreditSum(bs, toDate, acc) - DebitSum(bs, toDate, acc)
  {
    TallyIsSums(bs, toDate);
  }

  /** Which accounts the balance sheet lists and with which balance. */
  lemma BalancesAreSums(bs: seq<Booking>, dateLimit: string, acc: string)
    ensures acc in Balances(bs, dateLimit) <==>
              dateLimit != "" && (StartsWith(acc, '1') || StartsWith(acc, '2')) && Mentions(bs, dateLimit, acc)
    ensures acc in Balances(bs, dateLimit) ==>
              Balances(bs, dateLimit)[acc] ==
                if StartsWith(acc, '1') then DebitSum(bs, dateLimit, acc) - CreditSum(bs, dateLimit, acc)
                else CreditSum(bs, dateLimit, acc) - DebitSum(bs, dateLimit, acc)
  {
    TallyIsSums(bs, dateLimit);
  }

  /** No account is on both the statement and the balance sheet. */
  lemma StatementAndBalancesDisjoint(bs: seq<Booking>, cutoff: string)
    ensures Statement(bs, cutoff).Keys !! Balances(bs, cutoff).Keys
  {
  }

  /** Appending a booking dated after the cutoff changes neither view. */
  lemma LaterBookingChangesNothing(bs: seq<Booking>, b: Booking, cutoff: string)
    requires Less(cutoff, b.date)
    ensures Statement(bs + [b], cutoff) == Statement(bs, cutoff)
    ensures Balances(bs + [b], cutoff) == Balances(bs, cutoff)
  {
    LaterBookingIgnored(bs, b, cutoff);
  }

  // ---------------------------------------------------------------------
  // Profit

  /** The sum of the values of a map (the order of summation is immaterial). */
  ghost function Total(m: map<string, int>): int
    decreases m.Keys
  {
    if m.Keys == {} then 0
    else
      var k :| k in m;
      m[k] + Total(m - {k})
  }

  lemma {:induction false} TotalRemove(m: map<string, int>, k: string)
    requires k in m
    ensures Total(m) == m[k] + Total(m - {k})
    decreases m.Keys
  {
    var j :| j in m && Total(m) == m[j] + Total(m - {j});
    if j != k {
      TotalRemove(m - {j}, k);
      TotalRemove(m - {k}, j);
      assert (m - {j}) - {k} == (m - {k}) - {j};
    }
  }

  /** The entries of `m` among `keys` whose key starts with `c`. */
  function Part(m: map<string, int>, keys: set<string>, c: char): map<string, int>
  {
    map k | k in keys && k in m && StartsWith(k, c) :: m[k]
  }

  /** The sum of the balances of the accounts starting with `c`. */
  ghost function PrefixTotal(m: map<string, int>, c: char): int
  {
    Total(Part(m, m.Keys, c))
  }

  lemma PartAdd(m: map<string, int>, done: set<string>, k: string, c: char)
    requires k in m && k !in done
    ensures Total(Part(m, done + {k}, c)) ==
              Total(Part(m, done, c)) + (if StartsWith(k, c) then m[k] else 0)
  {
    if StartsWith(k, c) {
      TotalRemove(Part(m, done + {k}, c), k);
      assert Part(m, done + {k}, c) - {k} == Part(m, done, c);
    } else {
      assert Part(m, done + {k}, c) == Part(m, done, c);
    }
  }

  /** `getProfit(toDate)`: over the statement's accounts, the balances of
      prefix 3 minus the balances of prefix 4; 0 without a cutoff. Read off
      the bookings, that is what they credit to statement accounts minus
      what they debit to them. */
  method GetProfit(bs: seq<Booking>, toDate: string) returns (profit: int)
    ensures toDate == "" ==> profit == 0
    ensures profit == PrefixTotal(Statement(bs, toDate), '3') - PrefixTotal(Statement(bs, toDate), '4')
    ensures toDate != "" ==> profit == BookedProfit(bs, toDate)
  {
    ProfitIsBookedProfit(bs, toDate);
    if toDate == "" {
      assert Part(map[], {}, '3') == map[];
      assert Part(map[], {}, '4') == map[];
      return 0;
    }
    var saldo := Statement(bs, toDate);
    var revenue, expense := 0, 0;
    var todo := saldo.Keys;
    while todo != {}
      invariant todo <= saldo.Keys
      invariant revenue == Total(Part(saldo, saldo.Keys - todo, '4'))
      invariant expense == Total(Part(saldo, saldo.Keys - todo, '3'))
      decreases todo
    {
      var acc :| acc in todo;
      PartAdd(saldo, saldo.Keys - todo, acc, '4');
      PartAdd(saldo, saldo.Keys - todo, acc, '3');
      assert saldo.Keys - (todo - {acc}) == (saldo.Keys - todo) + {acc};
      if StartsWith(acc, '4') {
        revenue := revenue + saldo[acc];
      } else if StartsWith(acc, '3') {
        expense := expense + saldo[acc];
      }
      todo := todo - {acc};
    }
    assert saldo.Keys - todo == saldo.Keys;
    profit := expense - revenue;
  }

  // Profit booking by booking

  /** The net flow of the included bookings into the accounts starting with
      `c`: credits minus debits when `creditNormal`, else debits minus credits. */
  function Flow(bs: seq<Booking>, cutoff: string, c: char, creditNormal: bool): int
    decreases |bs|
  {
    if bs == [] then 0
    else
      var b := bs[|bs| - 1];
      var net := if !Included(b, cutoff) then 0
                 else (if StartsWith(b.credit, c) then b.amount else 0) - (if StartsWith(b.debit, c) then b.amount else 0);
      Flow(bs[..|bs| - 1], cutoff, c, creditNormal) + (if creditNormal then net else -net)
  }

  /** The signed balances of the accounts starting with `c` as a map. */
  function Side(tot: map<string, Totals>, c: char, creditNormal: bool): map<string, int>
  {
    map k | k in tot && StartsWith(k, c) ::
      if creditNormal then tot[k].credit - tot[k].debit else tot[k].debit - tot[k].credit
  }

  lemma SidePost(tot: map<string, Totals>, key: string, debit: int, credit: int, c: char, creditNormal: bool)
    ensures Total(Side(Post(tot, key, debit, credit), c, creditNormal)) ==
              Total(Side(tot, c, creditNormal)) +
              (if StartsWith(key, c) then (if creditNormal then credit - debit else debit - credit) else 0)
  {
    var before, after := Side(tot, c, creditNormal), Side(Post(tot, key, debit, credit), c, creditNormal);
    if !StartsWith(key, c) {
      assert after == before;
    } else {
      TotalRemove(after, key);
      assert after - {key} == before - {key};
      if key in tot {
        TotalRemove(before, key);
      } else {
        assert before - {key} == before;
      }
    }
  }

  /** Summing a prefix's balances is summing that prefix's flow, booking by booking. */
  lemma {:induction false} SideIsFlow(bs: seq<Booking>, cutoff: string, c: char, creditNormal: bool)
    ensures Total(Side(Tally(bs, cutoff), c, creditNormal)) == Flow(bs, cutoff, c, creditNormal)
  {
    if bs == [] {
      assert Side(map[], c, creditNormal) == map[];
    } else {
      var front, b := bs[..|bs| - 1], bs[|bs| - 1];
      SideIsFlow(front, cutoff, c, creditNormal);
      if Included(b, cutoff) {
        var once := Post(Tally(front, cutoff), b.debit, b.amount, 0);
        SidePost(Tally(front, cutoff), b.debit, b.amount, 0, c, creditNormal);
        SidePost(once, b.credit, 0, b.amount, c, creditNormal);
      }
    }
  }

  lemma StatementParts(tot: map<string, Totals>)
    ensures Part(Signed(tot, '4', '3'), Signed(tot, '4', '3').Keys, '3') == Side(tot, '3', true)
    ensures Part(Signed(tot, '4', '3'), Signed(tot, '4', '3').Keys, '4') == Side(tot, '4', false)
  {
  }

  lemma BalanceParts(tot: map<string, Totals>)
    ensures Part(Signed(tot, '1', '2'), Signed(tot, '1', '2').Keys, '1') == Side(tot, '1', false)
    ensures Part(Signed(tot, '1', '2'), Signed(tot, '1', '2').Keys, '2') == Side(tot, '2', true)
  {
  }

  /** Whether an account key belongs on the income statement. */
  predicate OnStatement(key: string) {
    StartsWith(key, '3') || StartsWith(key, '4')
  }

  /** The profit as a sum over the bookings: each included booking adds its
      amount when it credits a statement account and subtracts it when it
      debits one. */
  function BookedProfit(bs: seq<Booking>, cutoff: string): int
    decreases |bs|
  {
    if bs == [] then 0
    else
      var b := bs[|bs| - 1];
      BookedProfit(bs[..|bs| - 1], cutoff) +
        (if !Included(b, cutoff) then 0
         else (if OnStatement(b.credit) then b.amount else 0) - (if OnStatement(b.debit) then b.amount else 0))
  }

  lemma {:induction false} BookedProfitIsFlows(bs: seq<Booking>, cutoff: string)
    ensures BookedProfit(bs, cutoff) == Flow(bs, cutoff, '3', true) - Flow(bs, cutoff, '4', false)
  {
    if bs != [] {
      BookedProfitIsFlows(bs[..|bs| - 1], cutoff);
    }
  }

  /** The profit that `getProfit` reports equals the profit read off the
      bookings directly; without a cutoff both are 0. */
  lemma ProfitIsBookedProfit(bs: seq<Booking>, toDate: string)
    ensures PrefixTotal(Statement(bs, toDate), '3') - PrefixTotal(Statement(bs, toDate), '4') ==
              if toDate == "" then 0 else BookedProfit(bs, toDate)
  {
    if toDate == "" {
      assert Part(map[], {}, '3') == map[];
      assert Part(map[], {}, '4') == map[];
    } else {
      var tot := Tally(bs, toDate);
      StatementParts(tot);
      SideIsFlow(bs, toDate, '3', true);
      SideIsFlow(bs, toDate, '4', false);
      BookedProfitIsFlows(bs, toDate);
    }
  }

  // ---------------------------------------------------------------------
  // The balance sheet balances

  /** Both accounts of the booking are named and classified (prefix 1 to 4). */
  predicate Classified(b: Booking) {
    var known := (k: string) => StartsWith(k, '1') || StartsWith(k, '2') || StartsWith(k, '3') || StartsWith(k, '4');
    known(b.debit) && known(b.credit)
  }

  lemma {:induction false} FlowsCancel(bs: seq<Booking>, cutoff: string)
    requires forall i :: 0 <= i < |bs| && Included(bs[i], cutoff) ==> Classified(bs[i])
    ensures Flow(bs, cutoff, '1', false) - Flow(bs, cutoff, '2', true) ==
              Flow(bs, cutoff, '3', true) - Flow(bs, cutoff, '4', false)
  {
    if bs != [] {
      var front := bs[..|bs| - 1];
      assert forall i :: 0 <= i < |front| ==> front[i] == bs[i];
      FlowsCancel(front, cutoff);
    }
  }

  /** Double entry: when every booking up to the cutoff debits and credits
      accounts of the four classes, the assets (prefix 1) equal the
      liabilities (prefix 2) plus the profit as `getProfit` reports it,
      which is the comparison the balance view makes. */
  lemma BalanceSheetBalances(bs: seq<Booking>, cutoff: string)
    requires forall i :: 0 <= i < |bs| && Included(bs[i], cutoff) ==> Classified(bs[i])
    ensures PrefixTotal(Balances(bs, cutoff), '1') ==
              PrefixTotal(Balances(bs, cutoff), '2') +
              (PrefixTotal(Statement(bs, cutoff), '3') - PrefixTotal(Statement(bs, cutoff), '4'))
  {
    var tot := Tally(bs, cutoff);
    StatementParts(tot);
    BalanceParts(tot);
    SideIsFlow(bs, cutoff, '1', false);
    SideIsFlow(bs, cutoff, '2', true);
    SideIsFlow(bs, cutoff, '3', true);
    SideIsFlow(bs, cutoff, '4', false);
    FlowsCancel(bs, cutoff);
  }

  /** The worked example: one booking of 100 from 1000 to 4000 on the cutoff
      day shows 100 on asset 1000 and -100 on account 4000. */
  lemma SingleBookingExample()
    ensures var bs := [Booking("2024-01-01", "1000", "4000", 100)];
            Statement(bs, "2024-01-01") == map["4000" := -100] &&
            Balances(bs, "2024-01-01") == map["1000" := 100]
  {
    var bs := [Booking("2024-01-01", "1000", "4000", 100)];
    LessIrreflexive("2024-01-01");
    assert bs[..0] == [];
    var tot := Tally(bs, "2024-01-01");
    assert tot == map["1000" := Totals(100, 0), "4000" := Totals(0, 100)];
  }
}
