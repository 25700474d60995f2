/**
 * The row-store storage adapter. Rows use snake_case column names; the API uses camelCase field names.
 * `ToApi`/`FromApi` rename between the two; a `Table` holds one table's rows and is changed in place.
 */
module RowStore {
  import opened Basics
  import opened Text
  import opened Json
  import opened Http

  /** (API field, column) pairs. */
  type Shape = seq<(string, string)>

  predicate DistinctApi(shape: Shape) {
    forall i, j :: 0 <= i < j < |shape| ==> shape[i].0 != shape[j].0
  }

  predicate DistinctColumns(shape: Shape) {
    forall i, j :: 0 <= i < j < |shape| ==> shape[i].1 != shape[j].1
  }

  function Swap(shape: Shape): (swapped: Shape)
    ensures |swapped| == |shape|
    ensures forall i :: 0 <= i < |shape| ==> swapped[i] == (shape[i].1, shape[i].0)
  {
    seq(|shape|, i requires 0 <= i < |shape| => (shape[i].1, shape[i].0))
  }

  /** The timestamp fields, read from rows but never written by the application. */
  const Stamps: Shape := [("createdAt", "created_at"), ("updatedAt", "updated_at")]

  const RequestsShape: Shape :=
    [("id", "id"), ("committee", "committee"), ("community", "community"), ("date", "date"),
     ("needs", "needs"), ("notes", "notes"), ("status", "status")]

  const ResponsesShape: Shape :=
    [("id", "id"), ("requestId", "request_id"), ("musicianId", "musician_id"), ("message", "message"),
     ("status", "status")]

  const MatchesShape: Shape := [("id", "id"), ("requestId", "request_id"), ("musicianId", "musician_id")]

  const MusiciansShape: Shape :=
    [("id", "id"), ("name", "name"), ("community", "community"), ("city", "city"), ("country", "country"),
     ("musicCategory", "music_category"), ("instrument", "instrument"), ("bio", "bio"),
     ("contact", "contact"), ("compensationPreference", "compensation_preference"),
     ("available", "available"), ("performances", "performances")]

  /**
   * The writable fields of each table. Every name other than responses, matches and musicians
   * falls through to the requests shape.
   */
  function WritableShape(table: string): (shape: Shape)
    ensures |shape| > 0 && shape[0] == ("id", "id")
  {
    if table == "responses" then ResponsesShape
    else if table == "matches" then MatchesShape
    else if table == "musicians" then MusiciansShape
    else RequestsShape
  }

  function ApiNames(shape: Shape): seq<string> {
    seq(|shape|, i requires 0 <= i < |shape| => shape[i].0)
  }

  function ColumnNames(shape: Shape): seq<string> {
    seq(|shape|, i requires 0 <= i < |shape| => shape[i].1)
  }

  predicate Distinct2(full: Shape) {
    DistinctApi(full) && DistinctColumns(full)
  }

  lemma RequestsDistinct()
    ensures Distinct2(RequestsShape + Stamps)
  {
    var full := RequestsShape + Stamps;
    assert ApiNames(full) == ["id", "committee", "community", "date", "needs", "notes", "status", "createdAt",
      "updatedAt"];
    assert ColumnNames(full) == ["id", "committee", "community", "date", "needs", "notes", "status", "created_at",
      "updated_at"];
  }

  lemma ResponsesDistinct()
    ensures Distinct2(ResponsesShape + Stamps)
  {
    var full := ResponsesShape + Stamps;
    assert ApiNames(full) == ["id", "requestId", "musicianId", "message", "status", "createdAt", "updatedAt"];
    assert ColumnNames(full) == ["id", "request_id", "musician_id", "message", "status", "created_at", "updated_at"];
  }

  lemma MatchesDistinct()
    ensures Distinct2(MatchesShape + Stamps)
  {
    var full := MatchesShape + Stamps;
    assert ApiNames(full) == ["id", "requestId", "musicianId", "createdAt", "updatedAt"];
    assert ColumnNames(full) == ["id", "request_id", "musician_id", "created_at", "updated_at"];
  }

  lemma MusiciansDistinct()
    ensures Distinct2(MusiciansShape + Stamps)
  {
    var full := MusiciansShape + Stamps;
    assert ApiNames(full) == ["id", "name", "community", "city", "country", "musicCategory", "instrument",
      "bio", "contact", "compensationPreference", "available", "performances", "createdAt", "updatedAt"];
    assert ColumnNames(full) == ["id", "name", "community", "city", "country", "music_category", "instrument",
      "bio", "contact", "compensation_preference", "available", "performances", "created_at", "updated_at"];
  }

  /** No two fields of a table share an API name or a column name, timestamps included. */
  lemma ShapeDistinct(table: string)
    ensures Distinct2(WritableShape(table) + Stamps)
  {
    RequestsDistinct();
    ResponsesDistinct();
    MatchesDistinct();
    MusiciansDistinct();
  }

  /** An object literal `{ to_1: src.from_1, ..., to_n: src.from_n }` for (to, from) pairs. */
  function Rename(pairs: Shape, src: Record): (dst: Record)
    ensures dst.Keys == set i | 0 <= i < |pairs| :: pairs[i].0
    ensures forall i :: 0 <= i < |pairs| ==> pairs[i].0 in dst
    ensures DistinctApi(pairs) ==> forall i :: 0 <= i < |pairs| ==> dst[pairs[i].0] == Get(src, pairs[i].1)
  {
    if pairs == [] then map[]
    else Rename(pairs[..|pairs| - 1], src)[pairs[|pairs| - 1].0 := Get(src, pairs[|pairs| - 1].1)]
  }

  /** `toApi`: every API field of the table, timestamps included, read from its column. */
  function ToApi(table: string, row: Record): (rec: Record)
    ensures var shape := WritableShape(table) + Stamps;
      rec.Keys == (set i | 0 <= i < |shape| :: shape[i].0) &&
      forall i :: 0 <= i < |shape| ==> rec[shape[i].0] == Get(row, shape[i].1)
  {
    ShapeDistinct(table);
    Rename(WritableShape(table) + Stamps, row)
  }

  /** `fromApi`: only the writable columns, so a caller can never write `created_at` or `updated_at`. */
  function FromApi(table: string, payload: Record): (row: Record)
    ensures var shape := WritableShape(table);
      row.Keys == (set i | 0 <= i < |shape| :: shape[i].1) &&
      forall i :: 0 <= i < |shape| ==> row[shape[i].1] == Get(payload, shape[i].0)
    ensures "created_at" !in row && "updated_at" !in row
  {
    var shape := WritableShape(table);
    ShapeDistinct(table);
    ColumnsAvoidStamps(shape);
    Rename(Swap(shape), payload)
  }

  lemma ColumnsAvoidStamps(shape: Shape)
    requires DistinctColumns(shape + Stamps)
    ensures DistinctApi(Swap(shape))
    ensures forall i :: 0 <= i < |shape| ==> shape[i].1 != "created_at" && shape[i].1 != "updated_at"
  {
    var full := shape + Stamps;
    forall i | 0 <= i < |shape|
      ensures shape[i].1 != "created_at" && shape[i].1 != "updated_at"
    {
      assert full[i] == shape[i] && full[|shape|] == Stamps[0] && full[|shape| + 1] == Stamps[1];
    }
    forall i, j | 0 <= i < j < |shape|
      ensures Swap(shape)[i].0 != Swap(shape)[j].0
    {
      assert full[i] == shape[i] && full[j] == shape[j];
    }
  }

  /** `maybeRow`: the first row of a non-empty result, null for an empty or absent one. */
  function MaybeRow(rows: Option<seq<Record>>): (r: Option<Record>)
    ensures r.Some? <==> rows.Some? && |rows.value| > 0
    ensures r.Some? ==> r.value == rows.value[0]
  {
    if rows.Some? && |rows.value| > 0 then Some(rows.value[0]) else None
  }

  // ---------------------------------------------------------------- updates

  /**
   * An update as the row store applies it: fields sent as `undefined` are dropped from the JSON body,
   * every other field overwrites the column.
   */
  function Merge(row: Record, update: Record): (r: Record)
    ensures r.Keys == row.Keys + (set k | k in update && update[k] != Undefined)
    ensures forall k :: k in update && update[k] != Undefined ==> r[k] == update[k]
    ensures forall k :: k in row && (k !in update || update[k] == Undefined) ==> r[k] == row[k]
  {
    row + map k | k in update && update[k] != Undefined :: update[k]
  }

  /** `.eq('id', id)`: SQL equality never holds for a null or missing id. */
  predicate HasId(row: Record, id: Value) {
    id != Null && id != Undefined && Get(row, "id") == id
  }

  function PatchRows(rows: seq<Record>, id: Value, update: Record): (r: seq<Record>)
    ensures |r| == |rows|
    ensures forall i :: 0 <= i < |rows| && !HasId(rows[i], id) ==> r[i] == rows[i]
    ensures forall i :: 0 <= i < |rows| && HasId(rows[i], id) ==> r[i] == Merge(rows[i], update)
  {
    seq(|rows|, i requires 0 <= i < |rows| => if HasId(rows[i], id) then Merge(rows[i], update) else rows[i])
  }

  /** The index of the first row holding `id`, or -1. */
  function IndexOfId(rows: seq<Record>, id: Value): (k: int)
    ensures k == -1 || (0 <= k < |rows| && HasId(rows[k], id))
    ensures k == -1 <==> forall j :: 0 <= j < |rows| ==> !HasId(rows[j], id)
    ensures k != -1 ==> forall j :: 0 <= j < k ==> !HasId(rows[j], id)
  {
    if rows == [] then -1
    else if HasId(rows[0], id) then 0
    else var k := IndexOfId(rows[1..], id); if k == -1 then -1 else k + 1
  }

  function WithoutId(rows: seq<Record>, id: Value): seq<Record> {
    Filter(rows, (row: Record) => !HasId(row, id))
  }

  // ---------------------------------------------------------------- listing order

  /** The ordering key: the `created_at` text, or none for a null or missing timestamp. */
  function CreatedKey(rec: Record): Option<string> {
    var v := Get(rec, "createdAt");
    if v.Str? then Some(v.text) else None
  }

  /** `a` may be listed before `b` under `order('created_at', { ascending: false })`; nulls come first. */
  predicate ListedBefore(a: Record, b: Record) {
    var ka, kb := CreatedKey(a), CreatedKey(b);
    ka.None? || (kb.Some? && LexLe(kb.value, ka.value))
  }

  predicate SortedNewestFirst(s: seq<Record>) {
    forall i, j :: 0 <= i < j < |s| ==> ListedBefore(s[i], s[j])
  }

  lemma ListedBeforeTotal(a: Record, b: Record)
    ensures ListedBefore(a, b) || ListedBefore(b, a)
  {
    if CreatedKey(a).Some? && CreatedKey(b).Some? {
      LexLeTotal(CreatedKey(a).value, CreatedKey(b).value);
    }
  }

  lemma ListedBeforeTransitive(a: Record, b: Record, c: Record)
    requires ListedBefore(a, b) && ListedBefore(b, c)
    ensures ListedBefore(a, c)
  {
    if CreatedKey(a).Some? {
      LexLeTransitive(CreatedKey(c).value, CreatedKey(b).value, CreatedKey(a).value);
    }
  }

  function Insert(x: Record, s: seq<Record>): (r: seq<Record>)
    ensures multiset(r) == multiset(s) + multiset{x}
  {
    if s == [] then [x]
    else if ListedBefore(x, s[0]) then [x] + s
    else
      assert s == [s[0]] + s[1..];
      [s[0]] + Insert(x, s[1..])
  }

  lemma {:induction false} InsertSorted(x: Record, s: seq<Record>)
    requires SortedNewestFirst(s)
    ensures SortedNewestFirst(Insert(x, s))
  {
    if s == [] {
    } else if ListedBefore(x, s[0]) {
      forall j | 1 <= j < |s| + 1
        ensures ListedBefore(x, ([x] + s)[j])
      {
        if j > 1 {
          ListedBeforeTransitive(x, s[0], s[j - 1]);
        }
      }
    } else {
      ListedBeforeTotal(x, s[0]);
      InsertSorted(x, s[1..]);
      var tail := Insert(x, s[1..]);
      forall j | 0 <= j < |tail|
        ensures ListedBefore(s[0], tail[j])
      {
        assert tail[j] in multiset(tail);
        assert tail[j] in multiset(s[1..]) || tail[j] == x;
        if tail[j] != x {
          var m :| 0 <= m < |s[1..]| && s[1..][m] == tail[j];
          assert ListedBefore(s[0], s[m + 1]);
        }
      }
      var r := [s[0]] + tail;
      forall i, j | 0 <= i < j < |r|
        ensures ListedBefore(r[i], r[j])
      {
        if i > 0 {
          assert r[i] == tail[i - 1] && r[j] == tail[j - 1];
        }
      }
    }
  }

  function SortNewestFirst(s: seq<Record>): (r: seq<Record>)
    ensures multiset(r) == multiset(s)
    ensures SortedNewestFirst(r)
  {
    if s == [] then []
    else
      assert s == [s[0]] + s[1..];
      var rest := SortNewestFirst(s[1..]);
      InsertSorted(s[0], rest);
      Insert(s[0], rest)
  }

  function AllToApi(table: string, rows: seq<Record>): (recs: seq<Record>)
    ensures |recs| == |rows|
    ensures forall i :: 0 <= i < |rows| ==> recs[i] == ToApi(table, rows[i])
  {
    seq(|rows|, i requires 0 <= i < |rows| => ToApi(table, rows[i]))
  }

  const MissingConfigMessage := "Missing required env vars. Set SUPABASE_URL and SUPABASE_SERVICE_ROLE_KEY"

  /** One row-store table, changed in place by insert, update and delete. */
  class Table {
    const name: string
    var rows: seq<Record>

    constructor (name: string, rows: seq<Record>)
      ensures this.name == name && this.rows == rows
    {
      this.name := name;
      this.rows := rows;
    }

    /** `listRows`: every row in API shape, newest `created_at` first. */
    function ListRows(): (recs: seq<Record>)
      reads this
      ensures multiset(recs) == multiset(AllToApi(name, rows))
      ensures SortedNewestFirst(recs)
    {
      SortNewestFirst(AllToApi(name, rows))
    }

    /**
     * `appendRow`: inserts the writable columns of the payload; `defaults` stands for the values the
     * database fills in for columns the insert leaves out (id, created_at, updated_at).
     */
    method AppendRow(payload: Record, defaults: Record) returns (created: Record)
      modifies this
      ensures rows == old(rows) + [Merge(defaults, FromApi(name, payload))]
      ensures created == ToApi(name, Merge(defaults, FromApi(name, payload)))
    {
      var stored := Merge(defaults, FromApi(name, payload));
      rows := rows + [stored];
      var inserted := MaybeRow(Some([stored]));
      created := ToApi(name, inserted.value);
    }

    /** `patchRow`: every row holding the id is updated; the first updated row comes back, or null. */
    method PatchRow(id: Value, patch: Record) returns (updated: Option<Record>)
      modifies this
      ensures rows == PatchRows(old(rows), id, FromApi(name, patch))
      ensures updated.None? <==> IndexOfId(old(rows), id) == -1
      ensures updated.Some? ==>
        updated.value == ToApi(name, Merge(old(rows)[IndexOfId(old(rows), id)], FromApi(name, patch)))
    {
      var k := IndexOfId(rows, id);
      var update := FromApi(name, patch);
      var changed := if k == -1 then [] else [Merge(rows[k], update)];
      rows := PatchRows(rows, id, update);
      var row := MaybeRow(Some(changed));
      updated := if row.Some? then Some(ToApi(name, row.value)) else None;
    }

    /** `deleteRow`: every row holding the id goes; the answer is whether any did. */
    method DeleteRow(id: Value) returns (deleted: bool)
      modifies this
      ensures rows == WithoutId(old(rows), id)
      ensures deleted <==> exists i :: 0 <= i < |old(rows)| && HasId(old(rows)[i], id)
    {
      deleted := IndexOfId(rows, id) != -1;
      rows := WithoutId(rows, id);
    }
  }

  /** `withErrorHandling` of the row-store adapter. */
  function WithErrorHandling(configPresent: bool, outcome: Outcome): (r: Response)
    ensures !configPresent ==> r == Response(500, Error(MissingConfigMessage))
    ensures configPresent && outcome.Returned? ==> r == outcome.response
    ensures configPresent && outcome.Threw? ==>
      r == Response(500, Error(ErrorText(outcome.message, "Unexpected server error"))) && r.body.message != ""
  {
    Guard(configPresent, MissingConfigMessage, outcome)
  }

  // ---------------------------------------------------------------- properties

  lemma {:induction false} ApiRoundTripWith(shape: Shape, x: Record)
    requires Distinct2(shape + Stamps)
    ensures var back := Rename(shape + Stamps, Rename(Swap(shape), x));
      (forall i :: 0 <= i < |shape| ==> Get(back, shape[i].0) == Get(x, shape[i].0)) &&
      Get(back, "createdAt") == Undefined && Get(back, "updatedAt") == Undefined
  {
    var full := shape + Stamps;
    ColumnsAvoidStamps(shape);
    var row := Rename(Swap(shape), x);
    var back := Rename(full, row);
    forall i | 0 <= i < |shape|
      ensures Get(back, shape[i].0) == Get(x, shape[i].0)
    {
      assert full[i] == shape[i];
      assert Swap(shape)[i].0 == shape[i].1;
      assert back[full[i].0] == Get(row, full[i].1);
      assert row[Swap(shape)[i].0] == Get(x, Swap(shape)[i].1);
    }
    assert full[|shape|] == Stamps[0];
    assert back[full[|shape|].0] == Get(row, full[|shape|].1);
    assert full[|shape| + 1] == Stamps[1];
    assert back[full[|shape| + 1].0] == Get(row, full[|shape| + 1].1);
  }

  /** Mapping to a row and back keeps every API field except the two timestamps, which come back undefined. */
  lemma ApiRoundTrip(table: string, x: Record)
    ensures var shape := WritableShape(table);
      var back := ToApi(table, FromApi(table, x));
      (forall i :: 0 <= i < |shape| ==> Get(back, shape[i].0) == Get(x, shape[i].0)) &&
      Get(back, "createdAt") == Undefined && Get(back, "updatedAt") == Undefined
  {
    ShapeDistinct(table);
    ApiRoundTripWith(WritableShape(table), x);
  }

  /** Mapping a row to the API and back keeps every writable column. */
  lemma {:induction false} RowRoundTrip(table: string, row: Record)
    ensures var shape := WritableShape(table);
      var back := FromApi(table, ToApi(table, row));
      forall i :: 0 <= i < |shape| ==> Get(back, shape[i].1) == Get(row, shape[i].1)
  {
    var shape := WritableShape(table);
    var all := shape + Stamps;
    forall i | 0 <= i < |shape|
      ensures Get(FromApi(table, ToApi(table, row)), shape[i].1) == Get(row, shape[i].1)
    {
      assert all[i] == shape[i];
    }
  }

  /** Any table name outside responses, matches and musicians maps with the requests shape. */
  lemma UnknownTableIsRequests(table: string, row: Record, payload: Record)
    requires table != "responses" && table != "matches" && table != "musicians"
    ensures ToApi(table, row) == ToApi("requests", row)
    ensures FromApi(table, payload) == FromApi("requests", payload)
  {
  }

  /** Applying the same update twice leaves the table as applying it once. */
  lemma {:induction false} PatchIdempotent(rows: seq<Record>, id: Value, update: Record)
    ensures PatchRows(PatchRows(rows, id, update), id, update) == PatchRows(rows, id, update)
  {
    var once := PatchRows(rows, id, update);
    var twice := PatchRows(once, id, update);
    forall i | 0 <= i < |rows|
      ensures twice[i] == once[i]
    {
      if HasId(once[i], id) {
        var m := Merge(once[i], update);
        assert m.Keys == once[i].Keys;
        assert forall k :: k in m ==> m[k] == once[i][k];
      }
    }
  }

  /** Every requests field keeps its name as its column. */
  lemma RequestsNamesAreColumns()
    ensures forall i :: 0 <= i < |RequestsShape| ==> RequestsShape[i].0 == RequestsShape[i].1
  {
    assert ApiNames(RequestsShape) == ColumnNames(RequestsShape);
  }

  /** An update built from a status-only patch changes nothing but the status column. */
  lemma StatusOnlyPatch(row: Record, status: string)
    ensures Merge(row, FromApi("requests", map["status" := Str(status)])) == row["status" := Str(status)]
  {
    var patch := map["status" := Str(status)];
    var update := FromApi("requests", patch);
    var shape := WritableShape("requests");
    assert shape == RequestsShape;
    RequestsNamesAreColumns();
    assert shape[6] == ("status", "status");
    assert update["status"] == Str(status);
    forall k | k in update && update[k] != Undefined
      ensures k == "status"
    {
      var i :| 0 <= i < |shape| && shape[i].1 == k;
      assert Get(patch, shape[i].0) != Undefined;
    }
    var m := Merge(row, update);
    assert m.Keys == row.Keys + {"status"};
  }

  /** After a delete no row holds the id, and the remaining rows keep their order. */
  lemma DeleteLeavesNoMatch(rows: seq<Record>, id: Value)
    ensures forall r :: r in WithoutId(rows, id) ==> !HasId(r, id)
    ensures forall r :: r in rows && !HasId(r, id) ==> r in WithoutId(rows, id)
    ensures IsSubsequence(WithoutId(rows, id), rows)
  {
    FilterIsSubsequence(rows, (row: Record) => !HasId(row, id));
  }

  /** An insert followed by a listing includes the inserted record, carrying every writable field the payload gave. */
  lemma {:induction false} AppendThenList(table: string, rows: seq<Record>, payload: Record, defaults: Record)
    ensures var stored := Merge(defaults, FromApi(table, payload));
      var listed := SortNewestFirst(AllToApi(table, rows + [stored]));
      ToApi(table, stored) in listed &&
      forall i :: 0 <= i < |WritableShape(table)| && Get(payload, WritableShape(table)[i].0) != Undefined ==>
        Get(ToApi(table, stored), WritableShape(table)[i].0) == Get(payload, WritableShape(table)[i].0)
  {
    var row := FromApi(table, payload);
    var stored := Merge(defaults, row);
    var all := AllToApi(table, rows + [stored]);
    assert all[|rows|] == ToApi(table, stored);
    assert ToApi(table, stored) in multiset(all);
    var shape := WritableShape(table);
    var full := shape + Stamps;
    var created := ToApi(table, stored);
    forall i | 0 <= i < |shape| && Get(payload, shape[i].0) != Undefined
      ensures Get(created, shape[i].0) == Get(payload, shape[i].0)
    {
      assert full[i] == shape[i];
      assert created[full[i].0] == Get(stored, full[i].1);
      assert row[shape[i].1] == Get(payload, shape[i].0);
    }
  }
}
