/** The wiring between the two grids and the ledger: after the accounts grid
    saves, bookings that name an account that no longer exists lose that
    reference; and the ledger reads its bookings straight from the bookings
    grid's rows. */
module Bookkeeping {
  import opened JsValues
  import opened EditableTables
  import Ledger

  // ---------------------------------------------------------------------
  // Pruning references to vanished accounts

  /** The option values built from the accounts grid: each row's number. */
  function AccountNumbers(accounts: seq<Row>): (vs: seq<Value>)
    ensures |vs| == |accounts|
    ensures forall i :: 0 <= i < |vs| ==> vs[i] == Field(accounts[i], "number")
  {
    seq(|accounts|, i requires 0 <= i < |accounts| => Field(accounts[i], "number"))
  }

  /** `options.some(acc => acc.value == v)` */
  predicate Known(options: seq<Value>, v: Value) {
    exists o :: o in options && LooseEq(o, v)
  }

  /** A booking whose debit or credit matches no account option. */
  predicate Dangling(r: Row, options: seq<Value>) {
    !Known(options, Field(r, "debit")) || !Known(options, Field(r, "credit"))
  }

  /** One step of the pruning loop: an unmatched debit, then an unmatched
      credit, is set to null; nothing else of the row changes. */
  function PruneRow(r: Row, options: seq<Value>): (p: Row)
    ensures Field(p, "debit") == (if Known(options, Field(r, "debit")) then Field(r, "debit") else Null)
    ensures Field(p, "credit") == (if Known(options, Field(r, "credit")) then Field(r, "credit") else Null)
    ensures forall c :: c != "debit" && c != "credit" ==> Field(p, c) == Field(r, c)
    ensures p.isNew == r.isNew && p.deleted == r.deleted
  {
    var afterDebit := if Known(options, Field(r, "debit")) then r
                      else r.(fields := r.fields["debit" := Null]);
    if Known(options, Field(afterDebit, "credit")) then afterDebit
    else afterDebit.(fields := afterDebit.fields["credit" := Null])
  }

  /** The rows after the pruning loop. */
  function Pruned(data: seq<Row>, options: seq<Value>): (d: seq<Row>)
    ensures |d| == |data|
    ensures forall i :: 0 <= i < |d| ==> d[i] == PruneRow(data[i], options)
  {
    seq(|data|, i requires 0 <= i < |data| => PruneRow(data[i], options))
  }

  /** The indices the pruning loop adds to `changed`. */
  function DanglingIndices(data: seq<Row>, options: seq<Value>, upTo: int): set<int> {
    set i | 0 <= i < |data| && i < upTo && Dangling(data[i], options)
  }

  /** After pruning, every debit and credit is null or names an account option. */
  lemma PrunedReferencesResolve(data: seq<Row>, options: seq<Value>, i: nat)
    requires i < |data|
    ensures Field(Pruned(data, options)[i], "debit") == Null || Known(options, Field(Pruned(data, options)[i], "debit"))
    ensures Field(Pruned(data, options)[i], "credit") == Null || Known(options, Field(Pruned(data, options)[i], "credit"))
  {
  }

  /** A row the pruning changed is one it marks as edited. */
  lemma PrunedRowIsMarked(data: seq<Row>, options: seq<Value>, i: nat)
    requires i < |data| && Pruned(data, options)[i] != data[i]
    ensures i in DanglingIndices(data, options, |data|)
  {
  }

  /** A booking with an empty (null) debit never matches a numbered account,
      so every accounts save marks it as edited again even though the
      pruning leaves it as it was. */
  lemma EmptyReferenceIsMarked(r: Row, options: seq<Value>)
    requires Field(r, "debit") == Null
    requires forall o :: o in options ==> !IsNullish(o)
    ensures Dangling(r, options)
    ensures Field(PruneRow(r, options), "debit") == Field(r, "debit")
  {
  }

  /** The pruning loop of the wrapped accounts save, run over the bookings
      grid with the accounts grid's rows. */
  method PruneDanglingAccounts(bookings: EditableTable, accounts: seq<Row>)
    modifies bookings`data, bookings`changed, bookings`accountOptions
    ensures bookings.accountOptions == AccountNumbers(accounts)
    ensures bookings.data == Pruned(old(bookings.data), bookings.accountOptions)
    ensures bookings.changed ==
              old(bookings.changed) + DanglingIndices(old(bookings.data), bookings.accountOptions, |old(bookings.data)|)
  {
    var options := AccountNumbers(accounts);
    bookings.accountOptions := options;
    var i := 0;
    while i < |bookings.data|
      invariant 0 <= i <= |bookings.data| == |old(bookings.data)|
      invariant bookings.accountOptions == options
      invariant forall j :: 0 <= j < i ==> bookings.data[j] == PruneRow(old(bookings.data)[j], options)
      invariant forall j :: i <= j < |bookings.data| ==> bookings.data[j] == old(bookings.data)[j]
      invariant bookings.changed == old(bookings.changed) + DanglingIndices(old(bookings.data), options, i)
    {
      var b := bookings.data[i];
      if !Known(options, Field(b, "debit")) {
        b := b.(fields := b.fields["debit" := Null]);
        bookings.changed := bookings.changed + {i};
      }
      if !Known(options, Field(b, "credit")) {
        b := b.(fields := b.fields["credit" := Null]);
        bookings.changed := bookings.changed + {i};
      }
      bookings.data := bookings.data[i := b];
      assert DanglingIndices(old(bookings.data), options, i + 1) ==
             DanglingIndices(old(bookings.data), options, i) +
             (if Dangling(old(bookings.data)[i], options) then {i} else {});
      i := i + 1;
    }
  }

  /** The accounts grid's save as `initApp` wraps it: the original save, then,
      unless it failed, the pruning of the bookings grid against the accounts
      grid's (reloaded) rows. */
  method SaveAccounts(accounts: EditableTable, bookings: EditableTable, putOk: bool, reloaded: Option<seq<Record>>)
    returns (outcome: SaveOutcome)
    requires accounts != bookings
    requires reloaded.Some? ==> forall i :: 0 <= i < |reloaded.value| ==> HasNumericNumber(reloaded.value[i])
    modifies accounts`data, accounts`changed, bookings`data, bookings`changed, bookings`accountOptions
    ensures var request := RequestFor(accounts.apiPath, accounts.columns, old(accounts.data), old(accounts.changed));
      if DirtyRows(old(accounts.data), old(accounts.changed)) == [] then
        outcome == NothingToSave && accounts.data == old(accounts.data) && accounts.changed == old(accounts.changed)
      else if !putOk then
        outcome == PutFailed(request) && accounts.data == old(accounts.data) && accounts.changed == old(accounts.changed)
      else
        accounts.changed == {} &&
        match reloaded
        case None => outcome == ReloadFailed(request) && accounts.data == old(accounts.data)
        case Some(recs) => outcome == Saved(request) && accounts.data == SortByNumber(FromRecords(recs))
    ensures outcome.NothingToSave? || outcome.Saved? ==>
              bookings.accountOptions == AccountNumbers(accounts.data) &&
              bookings.data == Pruned(old(bookings.data), bookings.accountOptions) &&
              bookings.changed == old(bookings.changed) +
                DanglingIndices(old(bookings.data), bookings.accountOptions, |old(bookings.data)|)
    ensures outcome.PutFailed? || outcome.ReloadFailed? ==>
              bookings.data == old(bookings.data) && bookings.changed == old(bookings.changed) &&
              bookings.accountOptions == old(bookings.accountOptions)
  {
    outcome := accounts.Save(putOk, reloaded);
    if outcome.NothingToSave? || outcome.Saved? {
      PruneDanglingAccounts(bookings, accounts.data);
    }
  }

  // ---------------------------------------------------------------------
  // The ledger's view of the bookings grid

  /** The object key an account field is filed under, `""` for a falsy one. */
  function AccountKey(v: Value): (k: string)
    ensures k == "" <==> !Truthy(v)
    ensures Truthy(v) && v.Str? ==> k == v.s
    ensures Truthy(v) && v.Num? ==> k == Show(v.n)
  {
    if !Truthy(v) then "" else ToStr(v)
  }

  /** The date a booking is compared by; a missing date compares like the
      empty string (included at every cutoff). */
  function DateOf(v: Value): string {
    if v.Str? then v.s else ""
  }

  /** `Number(b.amount)`; a non-numeric amount is taken as 0. */
  function AmountOf(v: Value): (a: int)
    ensures v.Num? ==> a == v.n
    ensures IsBlank(v) && !v.Undef? ==> a == 0
  {
    match ToNumber(v)
    case Some(n) => n
    case None => 0
  }

  function BookingOf(r: Row): Ledger.Booking {
    Ledger.Booking(DateOf(Field(r, "date")), AccountKey(Field(r, "debit")), AccountKey(Field(r, "credit")),
                   AmountOf(Field(r, "amount")))
  }

  /** `bookingsTable.data` as the aggregation functions see it: every row,
      new and soft-deleted ones included. */
  function LedgerView(rows: seq<Row>): (bs: seq<Ledger.Booking>)
    ensures |bs| == |rows|
    ensures forall i :: 0 <= i < |rows| ==> bs[i] == BookingOf(rows[i])
  {
    seq(|rows|, i requires 0 <= i < |rows| => BookingOf(rows[i]))
  }

  /** An account number and the string the debit/credit select holds for it
      are filed under the same key. */
  lemma NumberAndItsStringShareKey(n: int)
    requires n != 0
    ensures AccountKey(Num(n)) == AccountKey(Str(Show(n)))
  {
  }

  /** Marking a booking as deleted does not take it out of the statement or
      the balance sheet: the aggregation reads every row until the deletion
      is saved. */
  lemma DeletionPendingStillCounts(rows: seq<Row>, i: nat, cutoff: string)
    requires i < |rows|
    ensures Ledger.Statement(LedgerView(Toggled(rows, i)), cutoff) == Ledger.Statement(LedgerView(rows), cutoff)
    ensures Ledger.Balances(LedgerView(Toggled(rows, i)), cutoff) == Ledger.Balances(LedgerView(rows), cutoff)
  {
    assert LedgerView(Toggled(rows, i)) == LedgerView(rows);
  }

  /** A reference the pruning removed posts nothing in the ledger. */
  lemma PrunedReferencePostsNothing(r: Row, options: seq<Value>)
    requires !Known(options, Field(r, "debit"))
    ensures BookingOf(PruneRow(r, options)).debit == ""
  {
  }
}
