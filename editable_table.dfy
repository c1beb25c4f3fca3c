/** The in-memory state of an editable grid bound to a backend resource
    (`accounts` or `bookings`): its rows with their transient new/deleted
    flags, the set of edited row indices, and the payload a save sends. */
module EditableTables {
  import opened JsValues

  /** A record as the backend delivers it: field name to value. */
  type Record = map<string, Value>

  /** A grid row: its fields and the transient `_new` / `_deleted` flags
      (absent, hence false, on rows that came from the backend). */
  datatype Row = Row(fields: Record, isNew: bool, deleted: bool)

  /** `row[c]`; a missing property reads as `undefined`. */
  function Field(r: Row, c: string): Value {
    if c in r.fields then r.fields[c] else Undef
  }

  // ---------------------------------------------------------------------
  // Loading: rows sorted by their number

  /** The key `a.number - b.number` compares by; rows whose number is not
      numeric are excluded from loading by its precondition. */
  function NumberKey(r: Row): int {
    match ToNumber(Field(r, "number"))
    case Some(n) => n
    case None => 0
  }

  predicate HasNumericNumber(rec: Record) {
    ToNumber(Field(Row(rec, false, false), "number")).Some?
  }

  predicate SortedByNumber(s: seq<Row>) {
    forall i, j :: 0 <= i < j < |s| ==> NumberKey(s[i]) <= NumberKey(s[j])
  }

  lemma ConsSorted(a: Row, rest: seq<Row>)
    requires SortedByNumber(rest)
    requires forall y :: y in rest ==> NumberKey(a) <= NumberKey(y)
    ensures SortedByNumber([a] + rest)
  {
  }

  /** Inserts `x` before the first row whose number is not smaller. */
  function Insert(x: Row, s: seq<Row>): (r: seq<Row>)
    requires SortedByNumber(s)
    ensures SortedByNumber(r)
    ensures multiset(r) == multiset(s) + multiset{x}
    ensures forall y :: y in r ==> y == x || y in s
  {
    if s == [] || NumberKey(x) <= NumberKey(s[0]) then
      assert forall y :: y in s ==> NumberKey(s[0]) <= NumberKey(y);
      ConsSorted(x, s);
      [x] + s
    else
      var rest := Insert(x, s[1..]);
      assert s == [s[0]] + s[1..];
      assert forall y :: y in s[1..] ==> NumberKey(s[0]) <= NumberKey(y);
      ConsSorted(s[0], rest);
      [s[0]] + rest
  }

  /** `data.sort((a, b) => a.number - b.number)`: ascending by number, a
      permutation of the input. */
  function SortByNumber(s: seq<Row>): (r: seq<Row>)
    ensures SortedByNumber(r)
    ensures multiset(r) == multiset(s)
    decreases |s|
  {
    if s == [] then []
    else
      assert s == [s[0]] + s[1..];
      Insert(s[0], SortByNumber(s[1..]))
  }

  /** The rows of freshly fetched records: no flags set. */
  function FromRecords(recs: seq<Record>): (rows: seq<Row>)
    ensures |rows| == |recs|
    ensures forall i :: 0 <= i < |rows| ==> rows[i] == Row(recs[i], false, false)
  {
    seq(|recs|, i requires 0 <= i < |recs| => Row(recs[i], false, false))
  }

  // ---------------------------------------------------------------------
  // Row edits

  /** `addRow`'s new row: every column the empty string, flagged new. */
  function BlankRow(columns: seq<string>): (r: Row)
    ensures r.isNew && !r.deleted
    ensures forall c :: c in r.fields <==> c in columns
    ensures forall c :: c in columns ==> Field(r, c) == Str("")
  {
    Row(map c | c in columns :: Str(""), true, false)
  }

  /** `toggleDelete(i)` on the rows. */
  function Toggled(data: seq<Row>, i: nat): (d: seq<Row>)
    requires i < |data|
    ensures |d| == |data|
    ensures d[i].deleted == !data[i].deleted
    ensures d[i].fields == data[i].fields && d[i].isNew == data[i].isNew
    ensures forall j :: 0 <= j < |data| && j != i ==> d[j] == data[j]
  {
    data[i := data[i].(deleted := !data[i].deleted)]
  }

  /** Toggling a row's deletion twice restores the rows. */
  lemma ToggleTwice(data: seq<Row>, i: nat)
    requires i < |data|
    ensures Toggled(Toggled(data, i), i) == data
  {
  }

  /** `data[i][field] = value`: an input control always delivers a string. */
  function Edited(data: seq<Row>, i: nat, field: string, value: string): (d: seq<Row>)
    requires i < |data|
    ensures |d| == |data|
    ensures Field(d[i], field) == Str(value)
    ensures forall c :: c != field ==> Field(d[i], c) == Field(data[i], c)
    ensures d[i].isNew == data[i].isNew && d[i].deleted == data[i].deleted
    ensures forall j :: 0 <= j < |data| && j != i ==> d[j] == data[j]
  {
    data[i := data[i].(fields := data[i].fields[field := Str(value)])]
  }

  // ---------------------------------------------------------------------
  // Selecting the rows a save sends

  predicate IsDirty(data: seq<Row>, changed: set<int>, i: nat)
    requires i < |data|
  {
    data[i].isNew || data[i].deleted || i in changed
  }

  /** The indices of the rows that are new, deleted or edited, ascending. */
  function DirtyIndices(data: seq<Row>, changed: set<int>): (idx: seq<nat>)
    ensures forall j :: 0 <= j < |idx| ==> idx[j] < |data|
    ensures forall j, k :: 0 <= j < k < |idx| ==> idx[j] < idx[k]
    ensures forall i :: 0 <= i < |data| ==> (i in idx <==> IsDirty(data, changed, i))
    decreases |data|
  {
    if data == [] then []
    else
      var n := |data| - 1;
      var front := DirtyIndices(data[..n], changed);
      assert forall i :: 0 <= i < n ==> data[..n][i] == data[i];
      if IsDirty(data, changed, n) then front + [n] else front
  }

  /** `data.filter((r, i) => r._new || r._deleted || changed.has(i))`. */
  function DirtyRows(data: seq<Row>, changed: set<int>): (rows: seq<Row>)
  {
    var idx := DirtyIndices(data, changed);
    seq(|idx|, j requires 0 <= j < |idx| => data[idx[j]])
  }

  /** A save has nothing to send exactly when no row is new, deleted or edited. */
  lemma NothingDirty(data: seq<Row>, changed: set<int>)
    ensures DirtyRows(data, changed) == [] <==> forall i :: 0 <= i < |data| ==> !IsDirty(data, changed, i)
  {
    var idx := DirtyIndices(data, changed);
    if idx != [] {
      assert idx[0] in idx;
    }
  }

  /** A freshly loaded table has nothing to save: no flags, no edits. */
  lemma ReloadedTableIsClean(recs: seq<Record>)
    ensures DirtyRows(SortByNumber(FromRecords(recs)), {}) == []
  {
    var rows := SortByNumber(FromRecords(recs));
    forall i | 0 <= i < |rows|
      ensures !IsDirty(rows, {}, i)
    {
      assert rows[i] in multiset(FromRecords(recs));
    }
    NothingDirty(rows, {});
  }

  // ---------------------------------------------------------------------
  // The payload

  /** A JSON value as it goes on the wire. */
  datatype Json = JNull | JNum(n: int) | JStr(s: string)

  type Entry = map<string, Json>

  /** A number as `JSON.stringify` writes it: NaN is written as null. */
  function JsonOfNumber(n: Option<int>): (j: Json)
    ensures n.Some? ==> j == JNum(n.value)
    ensures n.None? ==> j == JNull
  {
    match n
    case Some(v) => JNum(v)
    case None => JNull
  }

  /** `raw === "" || raw == null` */
  predicate IsBlank(v: Value) {
    v == Str("") || IsNullish(v)
  }

  /** One column of a bookings entry. */
  function BookingField(row: Row, c: string): Json {
    if row.deleted then JNull
    else
      var raw := Field(row, c);
      if IsBlank(raw) then JNull
      else if c == "debit" || c == "credit" then JsonOfNumber(ToNumber(raw))
      else if c == "amount" then JsonOfNumber(ToNumber(raw))
      else match raw
        case Num(n) => JNum(n)
        case Str(s) => JStr(s)
        case _ => JNull
  }

  /** A bookings row as the backend expects it: `id` from the number when
      there is one, every other column except `number` by `BookingField`. */
  function BookingEntry(columns: seq<string>, row: Row): (e: Entry)
    ensures "number" !in e
    ensures forall c :: c in e <==>
              (c in columns && c != "number") || (c == "id" && !IsNullish(Field(row, "number")))
    ensures "id" !in columns && !IsNullish(Field(row, "number")) ==>
              e["id"] == JsonOfNumber(ToNumber(Field(row, "number")))
    ensures row.deleted ==> forall c :: c in columns && c != "number" ==> e[c] == JNull
    ensures forall c :: c in columns && c != "number" && IsBlank(Field(row, c)) ==> e[c] == JNull
    ensures forall c :: c in columns && c != "number" && !row.deleted && !IsBlank(Field(row, c)) ==>
              if c == "debit" || c == "credit" || c == "amount" then e[c] == JsonOfNumber(ToNumber(Field(row, c)))
              else (Field(row, c).Str? ==> e[c] == JStr(Field(row, c).s)) &&
                   (Field(row, c).Num? ==> e[c] == JNum(Field(row, c).n))
  {
    var number := Field(row, "number");
    var id: Entry := if IsNullish(number) then map[] else map["id" := JsonOfNumber(ToNumber(number))];
    id + map c | c in columns && c != "number" :: BookingField(row, c)
  }

  /** One column of an accounts entry. */
  function AccountField(row: Row, c: string): Json {
    if c == "number" then JsonOfNumber(ToNumber(Field(row, c)))
    else if row.deleted then JNull
    else if IsBlank(Field(row, c)) then JNull
    else JStr(ToStr(Field(row, c)))
  }

  /** An accounts row as the backend expects it: `number` numeric, the other
      columns strings, nulls for a deleted row. */
  function AccountEntry(columns: seq<string>, row: Row): (e: Entry)
    ensures forall c :: c in e <==> c in columns
    ensures "number" in columns ==> e["number"] == JsonOfNumber(ToNumber(Field(row, "number")))
    ensures row.deleted ==> forall c :: c in columns && c != "number" ==> e[c] == JNull
    ensures forall c :: c in columns && c != "number" && IsBlank(Field(row, c)) ==> e[c] == JNull
    ensures forall c :: c in columns && c != "number" && !row.deleted && !IsBlank(Field(row, c)) ==>
              e[c] == JStr(ToStr(Field(row, c)))
  {
    map c | c in columns :: AccountField(row, c)
  }

  function EntryFor(apiPath: string, columns: seq<string>, row: Row): Entry {
    if apiPath == "bookings" then BookingEntry(columns, row) else AccountEntry(columns, row)
  }

  function PayloadKey(apiPath: string): string {
    if apiPath == "accounts" then "accounts" else "entries"
  }

  /** A `PUT /{path}` with body `{ key: entries }`. */
  datatype Request = Request(path: string, key: string, entries: seq<Entry>)

  /** The request a save sends: one entry per selected row, in row order. */
  function RequestFor(apiPath: string, columns: seq<string>, data: seq<Row>, changed: set<int>): (req: Request)
    ensures req.path == apiPath && req.key == PayloadKey(apiPath)
    ensures |req.entries| == |DirtyRows(data, changed)|
    ensures forall j :: 0 <= j < |req.entries| ==>
              req.entries[j] == EntryFor(apiPath, columns, DirtyRows(data, changed)[j])
  {
    var rows := DirtyRows(data, changed);
    Request(apiPath, PayloadKey(apiPath), seq(|rows|, j requires 0 <= j < |rows| => EntryFor(apiPath, columns, rows[j])))
  }

  /** A deleted booking is sent as its id and nulls: nothing else survives. */
  lemma DeletedBookingSendsOnlyId(columns: seq<string>, row: Row)
    requires row.deleted && "id" !in columns
    ensures forall k :: k in BookingEntry(columns, row) && k != "id" ==> BookingEntry(columns, row)[k] == JNull
  {
  }

  /** An account picked in a booking's debit or credit select (whose value is
      the account number rendered as a string) is sent as that number. */
  lemma SelectedAccountSentAsNumber(columns: seq<string>, row: Row, c: string, n: int)
    requires c in columns && (c == "debit" || c == "credit")
    requires !row.deleted && Field(row, c) == Str(Show(n))
    ensures BookingEntry(columns, row)[c] == JNum(n)
  {
    ParseShow(n);
  }

  /** A name typed into a live account row is sent as typed; an emptied one
      is sent as null. */
  lemma AccountNameSentAsTyped(columns: seq<string>, data: seq<Row>, i: nat, value: string)
    requires i < |data| && !data[i].deleted && "name" in columns
    ensures AccountEntry(columns, Edited(data, i, "name", value)[i])["name"] ==
              if value == "" then JNull else JStr(value)
  {
  }

  /** An edit is always picked up by the next save: the edited row is
      selected, and its entry carries the new text. */
  lemma EditIsSent(columns: seq<string>, data: seq<Row>, changed: set<int>, i: nat, field: string, value: string)
    requires i < |data| && !data[i].deleted && value != ""
    requires field in columns && field != "number" && field != "debit" && field != "credit" && field != "amount"
    ensures IsDirty(Edited(data, i, field, value), changed + {i}, i)
    ensures BookingEntry(columns, Edited(data, i, field, value)[i])[field] == JStr(value)
  {
  }

  // ---------------------------------------------------------------------
  // The grid

  /** What a save came to. */
  datatype SaveOutcome =
    | NothingToSave               // no dirty rows: nothing is sent
    | PutFailed(request: Request) // the PUT was rejected: nothing changes
    | ReloadFailed(request: Request) // saved, but the reload failed
    | Saved(request: Request)     // saved and reloaded

  class EditableTable {
    const apiPath: string
    const columns: seq<string>
    var data: seq<Row>
    var changed: set<int>
    /** The account numbers offered in the debit/credit selects. */
    var accountOptions: seq<Value>

    constructor (apiPath: string, columns: seq<string>, accountOptions: seq<Value>)
      ensures this.apiPath == apiPath && this.columns == columns
      ensures data == [] && changed == {} && this.accountOptions == accountOptions
    {
      this.apiPath := apiPath;
      this.columns := columns;
      data := [];
      changed := {};
      this.accountOptions := accountOptions;
    }

    /** `load`: the fetched records, ascending by number. */
    method Load(recs: seq<Record>)
      requires forall i :: 0 <= i < |recs| ==> HasNumericNumber(recs[i])
      modifies this`data
      ensures data == SortByNumber(FromRecords(recs))
      ensures SortedByNumber(data) && multiset(data) == multiset(FromRecords(recs))
    {
      data := SortByNumber(FromRecords(recs));
    }

    /** `addRow`: appends one blank row flagged new; the other rows stay. */
    method AddRow()
      modifies this`data
      ensures data == old(data) + [BlankRow(columns)]
      ensures IsDirty(data, changed, |old(data)|)
    {
      data := data + [BlankRow(columns)];
    }

    /** `toggleDelete(i)`: flips the deletion flag of row `i` only. */
    method ToggleDelete(i: nat)
      requires i < |data|
      modifies this`data
      ensures data == Toggled(old(data), i)
    {
      data := data[i := data[i].(deleted := !data[i].deleted)];
    }

    /** The data part of `onEdit`: stores the control's value and marks the
        row as edited. */
    method OnEdit(i: nat, field: string, value: string)
      requires i < |data|
      modifies this`data, this`changed
      ensures data == Edited(old(data), i, field, value)
      ensures changed == old(changed) + {i}
    {
      data := data[i := data[i].(fields := data[i].fields[field := Str(value)])];
      changed := changed + {i};
    }

    /** `save`: sends the dirty rows, then clears the edit marks and reloads.
        `putOk` is whether the backend accepted the PUT; `reloaded` is what
        the reload fetched, `None` if it failed. */
    method Save(putOk: bool, reloaded: Option<seq<Record>>) returns (outcome: SaveOutcome)
      requires reloaded.Some? ==> forall i :: 0 <= i < |reloaded.value| ==> HasNumericNumber(reloaded.value[i])
      modifies this`data, this`changed
      ensures var request := RequestFor(apiPath, columns, old(data), old(changed));
        if DirtyRows(old(data), old(changed)) == [] then
          outcome == NothingToSave && data == old(data) && changed == old(changed)
        else if !putOk then
          outcome == PutFailed(request) && data == old(data) && changed == old(changed)
        else
          changed == {} &&
          match reloaded
          case None => outcome == ReloadFailed(request) && data == old(data)
          case Some(recs) => outcome == Saved(request) && data == SortByNumber(FromRecords(recs))
      ensures outcome.Saved? ==> DirtyRows(data, changed) == []
    {
      var dirty := DirtyRows(data, changed);
      if |dirty| == 0 {
        return NothingToSave;
      }
      var request := RequestFor(apiPath, columns, data, changed);
      if !putOk {
        return PutFailed(request);
      }
      changed := {};
      match reloaded {
        case None =>
          outcome := ReloadFailed(request);
        case Some(recs) =>
          Load(recs);
          ReloadedTableIsClean(recs);
          outcome := Saved(request);
      }
    }
  }
}
