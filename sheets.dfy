/**
 * The spreadsheet storage adapter. A sheet is a range of rows of text cells whose first row is a header;
 * each table has a fixed list of columns, and a record is stored as one row in column order.
 */
module Sheets {
  import opened Basics
  import opened Text
  import opened Numbers
  import opened Json
  import opened Http

  datatype SheetTable = Musicians | Requests | Responses | Matches

  /** The configured columns of each table; the id is always the first cell of a row. */
  function Columns(t: SheetTable): (cols: seq<string>)
    ensures |cols| > 0 && cols[0] == "id" && Distinct(cols)
  {
    match t
    case Musicians => ["id", "name", "community", "instrument", "contact", "available", "performances", "createdAt"]
    case Requests => ["id", "committee", "community", "date", "needs", "notes", "status", "createdAt", "updatedAt"]
    case Responses => ["id", "requestId", "musicianId", "message", "status", "createdAt"]
    case Matches => ["id", "requestId", "musicianId", "updatedAt"]
  }

  const MissingConfigMessage :=
    "Missing required env vars. Set GOOGLE_SERVICE_ACCOUNT_EMAIL, GOOGLE_PRIVATE_KEY, GOOGLE_SHEETS_ID"

  // ---------------------------------------------------------------- reading rows

  /** `row[i] ?? ''`: a row shorter than the column list reads as empty cells. */
  function Cell(row: seq<string>, i: nat): string {
    if i < |row| then row[i] else ""
  }

  /** The type coercion applied to a column after the row is read. */
  function Coerce(key: string, cell: string): Value {
    if key == "available" then Bool(ToLower(cell) == "true")
    else if key == "performances" then Num(if cell == "" then Int(0) else ParseNumber(cell))
    else Str(cell)
  }

  /** The object filled by the `forEach` over the first `n` columns, before coercion. */
  function RawFields(cols: seq<string>, row: seq<string>, n: nat): (out: map<string, string>)
    requires n <= |cols|
    ensures out.Keys == set i | 0 <= i < n :: cols[i]
    ensures Distinct(cols) ==> forall i :: 0 <= i < n ==> out[cols[i]] == Cell(row, i)
  {
    if n == 0 then map[]
    else RawFields(cols, row, n - 1)[cols[n - 1] := Cell(row, n - 1)]
  }

  /** One record field per configured column, holding that column's cell after coercion. */
  function NormalizeRow(cols: seq<string>, row: seq<string>): (out: Record)
    ensures out.Keys == set i | 0 <= i < |cols| :: cols[i]
    ensures Distinct(cols) ==> forall i :: 0 <= i < |cols| ==> out[cols[i]] == Coerce(cols[i], Cell(row, i))
  {
    var raw := RawFields(cols, row, |cols|);
    map k | k in raw :: Coerce(k, raw[k])
  }

  /** The cells written for a record: one per configured column, in column order. */
  function RowToArray(cols: seq<string>, payload: Record): (cells: seq<string>)
    ensures |cells| == |cols|
    ensures forall i :: 0 <= i < |cols| && cols[i] !in payload ==> cells[i] == ""
    ensures forall i :: 0 <= i < |cols| && cols[i] in payload && payload[cols[i]].Str? ==>
      cells[i] == payload[cols[i]].text
    ensures forall i :: 0 <= i < |cols| && cols[i] in payload && (payload[cols[i]].Null? || payload[cols[i]].Undefined?) ==>
      cells[i] == ""
    ensures forall i :: 0 <= i < |cols| && cols[i] in payload && payload[cols[i]].Bool? ==>
      cells[i] == if payload[cols[i]].flag then "true" else "false"
    ensures forall i :: 0 <= i < |cols| && cols[i] in payload && payload[cols[i]].Num? ==>
      cells[i] == NumberToString(payload[cols[i]].number)
  {
    seq(|cols|, i requires 0 <= i < |cols| => AsText(Get(payload, cols[i])))
  }

  function NormalizeAll(cols: seq<string>, rows: seq<seq<string>>): (records: seq<Record>)
    ensures |records| == |rows|
    ensures forall i :: 0 <= i < |rows| ==> records[i] == NormalizeRow(cols, rows[i])
  {
    if rows == [] then [] else [NormalizeRow(cols, rows[0])] + NormalizeAll(cols, rows[1..])
  }

  /** The records of a sheet: every row after the header. */
  function ListRows(cols: seq<string>, values: seq<seq<string>>): (records: seq<Record>)
    ensures |values| <= 1 ==> records == []
    ensures |values| > 1 ==> |records| == |values| - 1
    ensures forall i :: 1 <= i < |values| ==> records[i - 1] == NormalizeRow(cols, values[i])
  {
    if |values| <= 1 then [] else NormalizeAll(cols, values[1..])
  }

  // ---------------------------------------------------------------- finding a row

  /** `(row?.[0] || '') === id`. */
  predicate IdMatches(row: seq<string>, id: Value) {
    Str(if |row| > 0 then row[0] else "") == id
  }

  /** The index of the first row at or after `from` whose first cell is `id`, or -1. */
  function FindFrom(values: seq<seq<string>>, id: Value, from: nat): (k: int)
    decreases |values| - from
    ensures k == -1 || (from <= k < |values| && IdMatches(values[k], id))
    ensures k == -1 ==> forall j :: from <= j < |values| ==> !IdMatches(values[j], id)
    ensures k != -1 ==> forall j :: from <= j < k ==> !IdMatches(values[j], id)
  {
    if from >= |values| then -1
    else if IdMatches(values[from], id) then from
    else FindFrom(values, id, from + 1)
  }

  /** The 0-based index of the first data row holding `id`; the header row is never a candidate. */
  function DataRowIndex(values: seq<seq<string>>, id: Value): (k: int)
    ensures k == -1 || (1 <= k < |values| && IdMatches(values[k], id))
    ensures k == -1 <==> forall j :: 1 <= j < |values| ==> !IdMatches(values[j], id)
  {
    FindFrom(values, id, 1)
  }

  /** The linear scan of `rowIndexById`: the 1-based sheet row number of the first data row holding `id`, or -1. */
  method RowIndexById(values: seq<seq<string>>, id: Value) returns (rowNumber: int)
    ensures rowNumber == -1 <==> forall j :: 1 <= j < |values| ==> !IdMatches(values[j], id)
    ensures rowNumber != -1 ==>
      2 <= rowNumber <= |values| && IdMatches(values[rowNumber - 1], id) &&
      forall j :: 1 <= j < rowNumber - 1 ==> !IdMatches(values[j], id)
    ensures rowNumber == if DataRowIndex(values, id) == -1 then -1 else DataRowIndex(values, id) + 1
  {
    var i := 1;
    while i < |values|
      invariant 1 <= i
      invariant forall j :: 1 <= j < i && j < |values| ==> !IdMatches(values[j], id)
      invariant FindFrom(values, id, 1) == FindFrom(values, id, i)
    {
      var first := if |values[i]| > 0 then values[i][0] else "";
      if Str(first) == id {
        return i + 1;
      }
      i := i + 1;
    }
    return -1;
  }

  // ---------------------------------------------------------------- writing rows

  /** `payload.x || fallback` for one field. */
  function OrValue(v: Value, fallback: Value): Value {
    if Truthy(v) then v else fallback
  }

  /** The stored payload of `appendRow`: caller-supplied id and timestamps are kept, missing ones filled in. */
  function WithIdentity(payload: Record, freshId: string, now: string): (full: Record)
    ensures full.Keys == payload.Keys + {"id", "createdAt", "updatedAt"}
    ensures full["id"] == if Truthy(Get(payload, "id")) then Get(payload, "id") else Str(freshId)
    ensures full["createdAt"] == if Truthy(Get(payload, "createdAt")) then Get(payload, "createdAt") else Str(now)
    ensures full["updatedAt"] == if Truthy(Get(payload, "updatedAt")) then Get(payload, "updatedAt") else Str(now)
    ensures forall k :: k in payload && k != "id" && k != "createdAt" && k != "updatedAt" ==> full[k] == payload[k]
  {
    payload["id" := OrValue(Get(payload, "id"), Str(freshId))]
           ["createdAt" := OrValue(Get(payload, "createdAt"), Str(now))]
           ["updatedAt" := OrValue(Get(payload, "updatedAt"), Str(now))]
  }

  /** The merged record of `patchRow`: existing fields, overwritten by the patch, then the id and a fresh updatedAt. */
  function Merged(existing: Record, patch: Record, id: Value, now: string): (merged: Record)
    ensures merged.Keys == existing.Keys + patch.Keys + {"id", "updatedAt"}
    ensures merged["id"] == id && merged["updatedAt"] == Str(now)
    ensures forall k :: k in patch && k != "id" && k != "updatedAt" ==> merged[k] == patch[k]
    ensures forall k :: k in existing && k !in patch && k != "id" && k != "updatedAt" ==> merged[k] == existing[k]
  {
    (existing + patch)["id" := id]["updatedAt" := Str(now)]
  }

  /** The rows kept by `values.filter((_, idx) => idx !== k)`. */
  function RemoveAt<T>(s: seq<T>, k: nat): (r: seq<T>)
    requires k < |s|
    ensures |r| == |s| - 1
    ensures forall j :: 0 <= j < k ==> r[j] == s[j]
    ensures forall j :: k <= j < |r| ==> r[j] == s[j + 1]
  {
    s[..k] + s[k + 1..]
  }

  /** One table's range in the spreadsheet, changed in place by append, patch and delete. */
  class Sheet {
    const table: SheetTable
    var values: seq<seq<string>>

    constructor (table: SheetTable, values: seq<seq<string>>)
      ensures this.table == table && this.values == values
    {
      this.table := table;
      this.values := values;
    }

    /** `appendRow`: one row for the completed payload goes after the last row. */
    method AppendRow(payload: Record, freshId: string, now: string) returns (full: Record)
      modifies this
      ensures full == WithIdentity(payload, freshId, now)
      ensures values == old(values) + [RowToArray(Columns(table), full)]
    {
      full := WithIdentity(payload, freshId, now);
      values := values + [RowToArray(Columns(table), full)];
    }

    /** `patchRow`: on a hit, exactly the found row is overwritten with the merged record's cells. */
    method PatchRow(id: Value, patch: Record, now: string) returns (merged: Option<Record>)
      modifies this
      ensures DataRowIndex(old(values), id) == -1 ==> merged == None && values == old(values)
      ensures DataRowIndex(old(values), id) != -1 ==>
        var k := DataRowIndex(old(values), id);
        merged == Some(Merged(NormalizeRow(Columns(table), old(values)[k]), patch, id, now)) &&
        values == old(values)[k := RowToArray(Columns(table), merged.value)]
    {
      var rowNumber := RowIndexById(values, id);
      if rowNumber < 0 {
        return None;
      }
      assert rowNumber - 1 == DataRowIndex(values, id);
      var cols := Columns(table);
      var existing := NormalizeRow(cols, values[rowNumber - 1]);
      var m := Merged(existing, patch, id, now);
      values := values[rowNumber - 1 := RowToArray(cols, m)];
      merged := Some(m);
    }

    /** `deleteRow`: the whole range is rewritten without the found row. */
    method DeleteRow(id: Value) returns (removed: bool)
      modifies this
      ensures var k := DataRowIndex(old(values), id);
        removed == (k != -1) &&
        values == if k == -1 then old(values) else RemoveAt(old(values), k)
    {
      var rowNumber := RowIndexById(values, id);
      if rowNumber < 0 {
        return false;
      }
      values := RemoveAt(values, rowNumber - 1);
      removed := true;
    }
  }

  /** `withErrorHandling` of the spreadsheet adapter. */
  function WithErrorHandling(configPresent: bool, outcome: Outcome): (r: Response)
    ensures !configPresent ==> r == Response(500, Error(MissingConfigMessage))
    ensures configPresent && outcome.Returned? ==> r == outcome.response
    ensures configPresent && outcome.Threw? ==>
      r == Response(500, Error(ErrorText(outcome.message, "Unexpected server error"))) && r.body.message != ""
  {
    Guard(configPresent, MissingConfigMessage, outcome)
  }

  // ---------------------------------------------------------------- properties

  /** A missing cell reads as the empty string before coercion. */
  lemma MissingCellIsEmpty(cols: seq<string>, row: seq<string>, i: nat)
    requires Distinct(cols) && |row| <= i < |cols|
    ensures NormalizeRow(cols, row)[cols[i]] == Coerce(cols[i], "")
  {
  }

  /** `available` is true exactly when the cell, lowercased, is "true". */
  lemma AvailableCoercion(cols: seq<string>, row: seq<string>, i: nat)
    requires Distinct(cols) && i < |cols| && cols[i] == "available"
    ensures NormalizeRow(cols, row)["available"] == Bool(ToLower(Cell(row, i)) == "true")
  {
  }

  /**
   * `performances` is 0 for an empty cell and `Number` of the cell otherwise, so NaN, not 0, for a
   * cell whose first character no numeral can start with.
   */
  lemma PerformancesCoercion(cols: seq<string>, row: seq<string>, i: nat)
    requires Distinct(cols) && i < |cols| && cols[i] == "performances"
    ensures Cell(row, i) == "" ==> NormalizeRow(cols, row)["performances"] == Num(Int(0))
    ensures Cell(row, i) != "" ==> NormalizeRow(cols, row)["performances"] == Num(ParseNumber(Cell(row, i)))
    ensures var c := Cell(row, i);
      c != "" && !MayStartNumber(c[0]) ==> NormalizeRow(cols, row)["performances"] == Num(NaN)
  {
    var c := Cell(row, i);
    if c != "" && !MayStartNumber(c[0]) {
      assert !AllDigits(c);
    }
  }

  /** Serialising only looks at configured columns: extra record fields are never persisted. */
  lemma RowToArrayOnlyColumns(cols: seq<string>, a: Record, b: Record)
    requires forall c :: c in cols ==> Get(a, c) == Get(b, c)
    ensures RowToArray(cols, a) == RowToArray(cols, b)
  {
    assert forall i :: 0 <= i < |cols| ==> cols[i] in cols;
  }

  lemma CoerceText(key: string, cell: string)
    ensures Coerce(key, AsText(Coerce(key, cell))) == Coerce(key, cell)
  {
    if key == "available" {
      var b := ToLower(cell) == "true";
      if b {
        assert ToLower("true") == "true";
      } else {
        assert |ToLower("false")| != |"true"|;
      }
    } else if key == "performances" {
      ParseRoundTrip(if cell == "" then Int(0) else ParseNumber(cell));
    }
  }

  /** A record read from a row, written back and read again, is the record that was read. */
  lemma {:induction false} NormalizeSerializeRoundTrip(cols: seq<string>, row: seq<string>)
    requires Distinct(cols)
    ensures NormalizeRow(cols, RowToArray(cols, NormalizeRow(cols, row))) == NormalizeRow(cols, row)
  {
    var rec := NormalizeRow(cols, row);
    var again := NormalizeRow(cols, RowToArray(cols, rec));
    forall i | 0 <= i < |cols|
      ensures again[cols[i]] == rec[cols[i]]
    {
      CoerceText(cols[i], Cell(row, i));
    }
    assert again.Keys == rec.Keys;
  }

  /** A text field the patch sets in a column that is neither coerced nor forced by `patchRow`. */
  predicate PlainPatched(c: string, patch: Record) {
    c in patch && patch[c].Str? && c != "id" && c != "updatedAt" && c != "available" && c != "performances"
  }

  /**
   * After a patch, reading the rewritten row back gives the patched text for every patched plain column,
   * and the old value for every column the patch leaves alone (merge, not replace).
   */
  lemma {:induction false} PatchReadsBack(cols: seq<string>, row: seq<string>, patch: Record, id: Value, now: string)
    requires Distinct(cols)
    ensures var merged := Merged(NormalizeRow(cols, row), patch, id, now);
      var again := NormalizeRow(cols, RowToArray(cols, merged));
      (forall i :: 0 <= i < |cols| && cols[i] !in patch && cols[i] != "id" && cols[i] != "updatedAt" ==>
         again[cols[i]] == NormalizeRow(cols, row)[cols[i]]) &&
      (forall i :: 0 <= i < |cols| && PlainPatched(cols[i], patch) ==> again[cols[i]] == patch[cols[i]])
  {
    var merged := Merged(NormalizeRow(cols, row), patch, id, now);
    forall i | 0 <= i < |cols| && cols[i] !in patch && cols[i] != "id" && cols[i] != "updatedAt"
      ensures NormalizeRow(cols, RowToArray(cols, merged))[cols[i]] == NormalizeRow(cols, row)[cols[i]]
    {
      CoerceText(cols[i], Cell(row, i));
    }
  }

  /** Appending to a sheet with a header adds exactly the new record at the end of the listing. */
  lemma {:induction false} ListAfterAppend(cols: seq<string>, values: seq<seq<string>>, row: seq<string>)
    requires |values| >= 1
    ensures ListRows(cols, values + [row]) == ListRows(cols, values) + [NormalizeRow(cols, row)]
  {
    var before := ListRows(cols, values);
    var after := ListRows(cols, values + [row]);
    assert |after| == |before| + 1;
    forall i | 0 <= i < |after|
      ensures after[i] == (before + [NormalizeRow(cols, row)])[i]
    {
      assert (values + [row])[i + 1] == if i + 1 < |values| then values[i + 1] else row;
    }
  }

  /** Deleting data row `k` removes exactly the matching record from the listing, keeping the others' order. */
  lemma {:induction false} ListAfterDelete(cols: seq<string>, values: seq<seq<string>>, k: nat)
    requires 1 <= k < |values|
    ensures ListRows(cols, RemoveAt(values, k)) == RemoveAt(ListRows(cols, values), k - 1)
  {
    var before := ListRows(cols, values);
    var after := ListRows(cols, RemoveAt(values, k));
    assert |after| == |before| - 1;
    forall i | 0 <= i < |after|
      ensures after[i] == RemoveAt(before, k - 1)[i]
    {
    }
  }

  /** Patching data row `k` changes exactly that record of the listing. */
  lemma {:induction false} ListAfterPatch(cols: seq<string>, values: seq<seq<string>>, k: nat, cells: seq<string>)
    requires 1 <= k < |values|
    ensures ListRows(cols, values[k := cells]) == ListRows(cols, values)[k - 1 := NormalizeRow(cols, cells)]
  {
    var before := ListRows(cols, values);
    var after := ListRows(cols, values[k := cells]);
    forall i | 0 <= i < |after|
      ensures after[i] == before[k - 1 := NormalizeRow(cols, cells)][i]
    {
    }
  }

  /** The header row is never listed: listings do not depend on it. */
  lemma {:induction false} HeaderNeverListed(cols: seq<string>, h1: seq<string>, h2: seq<string>, rest: seq<seq<string>>)
    ensures ListRows(cols, [h1] + rest) == ListRows(cols, [h2] + rest)
  {
    var a := ListRows(cols, [h1] + rest);
    var b := ListRows(cols, [h2] + rest);
    forall i | 0 <= i < |a|
      ensures a[i] == b[i]
    {
      assert ([h1] + rest)[i + 1] == rest[i] == ([h2] + rest)[i + 1];
    }
  }
}
