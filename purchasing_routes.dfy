/** The purchasing routes of the server (server/purchasing.js): the hardware
    query assembled from an optional supplier filter, and the inline update of a
    hardware row's storage location or locator bin. The database is a table of
    rows held in a class; whether a query fails is a parameter. */
module PurchasingRoutes {
  import opened Strings
  import opened Js

  /** A query text as the driver sees it: literal SQL and numbered `$n` placeholders. */
  datatype SqlPart = Sql(text: string) | Placeholder(n: nat)

  /** The SELECT of the hardware list (whitespace condensed). */
  const HardwareSelect: seq<SqlPart> := [Sql(
    "SELECT h.hardware_id, h.name, h.description, h.price, h.stock_quantity, h.supplier_id, "
    + "h.item_type, h.uom, h.storage_location, h.locator_bin, s.name AS supplier_name "
    + "FROM hardware h JOIN suppliers s ON h.supplier_id = s.supplier_id")]
  const WhereSupplier: seq<SqlPart> := [Sql(" WHERE h.supplier_id = "), Placeholder(1)]
  const OrderByNewest: seq<SqlPart> := [Sql(" ORDER BY h.hardware_id DESC")]

  const FetchHardwareError: string := "Server Error fetching hardware"
  const InvalidField: string := "Invalid field for update."
  const HardwareNotFound: string := "Hardware item not found."
  const UpdateFieldError: string := "Server Error updating inventory field."

  /** The only columns the inline update may set. */
  const EditableFields: seq<string> := ["storage_location", "locator_bin"]

  /** What a route sends: `res.json(object)`, `res.json(rows)` or `res.status(n).send(text)`. */
  datatype Reply = JsonReply(status: int, body: Json) | RowsReply(rows: seq<Json>) | TextReply(status: int, text: string)

  // ---------------------------------------------------------------- placeholders

  /** The placeholder numbers of a query, in the order they appear. */
  function Placeholders(q: seq<SqlPart>): (ns: seq<nat>)
    ensures |ns| <= |q|
  {
    if |q| == 0 then []
    else (if q[0].Placeholder? then [q[0].n] else []) + Placeholders(q[1..])
  }

  lemma {:induction false} PlaceholdersAppend(a: seq<SqlPart>, b: seq<SqlPart>)
    ensures Placeholders(a + b) == Placeholders(a) + Placeholders(b)
  {
    if |a| == 0 {
      assert a + b == b;
    } else {
      var head := if a[0].Placeholder? then [a[0].n] else [];
      assert (a + b)[0] == a[0];
      assert (a + b)[1..] == a[1..] + b;
      calc {
        Placeholders(a + b);
        head + Placeholders(a[1..] + b);
        { PlaceholdersAppend(a[1..], b); }
        head + (Placeholders(a[1..]) + Placeholders(b));
        (head + Placeholders(a[1..])) + Placeholders(b);
      }
    }
  }

  /** `$1` to `$n`: the placeholders a query with n parameters must use. */
  function Numbering(n: nat): (ns: seq<nat>)
    ensures |ns| == n && forall i :: 0 <= i < n ==> ns[i] == i + 1
  {
    if n == 0 then [] else Numbering(n - 1) + [n]
  }

  /** `if (supplierId)`: the query-string value is present and not empty. */
  predicate FiltersBySupplier(supplierId: Option<string>) {
    supplierId.Some? && supplierId.value != ""
  }

  /** The GET /hardware query, built step by step: it is QueryFor(supplierId). */
  method HardwareQuery(supplierId: Option<string>) returns (queryText: seq<SqlPart>, queryParams: seq<string>)
    ensures (queryText, queryParams) == QueryFor(supplierId)
  {
    queryText := HardwareSelect;
    queryParams := [];
    if FiltersBySupplier(supplierId) {
      queryText := queryText + WhereSupplier;
      queryParams := queryParams + [supplierId.value];
    }
    queryText := queryText + OrderByNewest;
    assert queryText == QueryFor(supplierId).0 && queryParams == QueryFor(supplierId).1;
  }

  /** GET /hardware. `run` is the database: the rows of a query, or None when it fails. */
  method ListHardware(supplierId: Option<string>, run: (seq<SqlPart>, seq<string>) -> Option<seq<Json>>) returns (reply: Reply)
    ensures var (text, params) := QueryFor(supplierId);
      && (run(text, params).Some? ==> reply == RowsReply(run(text, params).value))
      && (run(text, params).None? ==> reply == TextReply(500, FetchHardwareError))
  {
    var queryText, queryParams := HardwareQuery(supplierId);
    var allHardware := run(queryText, queryParams);
    if allHardware.None? {
      return TextReply(500, FetchHardwareError);
    }
    reply := RowsReply(allHardware.value);
  }

  /** The query and parameters of GET /hardware: the SELECT first and the ORDER BY
      last, the supplier's parameter exactly when a supplier is given, and the
      placeholders `$1` to `$n` for n parameters. */
  function QueryFor(supplierId: Option<string>): (q: (seq<SqlPart>, seq<string>))
    ensures Placeholders(q.0) == Numbering(|q.1|)
    ensures FiltersBySupplier(supplierId) ==> q.1 == [supplierId.value]
    ensures !FiltersBySupplier(supplierId) ==> q.1 == []
    ensures |q.0| > |HardwareSelect| && q.0[..|HardwareSelect|] == HardwareSelect
    ensures q.0[|q.0| - 1] == OrderByNewest[0]
  {
    PlaceholdersAppend(HardwareSelect, OrderByNewest);
    PlaceholdersAppend(HardwareSelect, WhereSupplier);
    PlaceholdersAppend(HardwareSelect + WhereSupplier, OrderByNewest);
    if FiltersBySupplier(supplierId) then (HardwareSelect + WhereSupplier + OrderByNewest, [supplierId.value])
    else (HardwareSelect + OrderByNewest, [])
  }

  // ---------------------------------------------------------------- update-field

  /** The UPDATE with the column name interpolated into SET; its parameters are `[value, hardwareId]`. */
  function UpdateQueryText(field: string): (q: seq<SqlPart>)
    ensures Placeholders(q) == Numbering(2)
  {
    var q := [Sql("UPDATE hardware SET " + field + " = "), Placeholder(1), Sql(" WHERE hardware_id = "), Placeholder(2), Sql(" RETURNING *;")];
    assert Placeholders(q[4..]) == [];
    assert Placeholders(q[3..]) == [2] + Placeholders(q[4..]);
    assert Placeholders(q[2..]) == Placeholders(q[3..]);
    assert Placeholders(q[1..]) == [1] + Placeholders(q[2..]);
    q
  }

  /** The hardware table: rows by hardware_id, each a map from column to value. */
  class HardwareTable {
    var rows: map<int, map<string, Json>>

    constructor (rows: map<int, map<string, Json>>)
      ensures this.rows == rows
    {
      this.rows := rows;
    }

    /** PUT /inventory/update-field. `field` and `value` come from the body;
        `hardwareId` is the row the database matches (None when it matches none);
        `failure` says whether the query throws. `executed` is the SQL sent, None
        when the whitelist refuses the field. */
    method UpdateField(hardwareId: Option<int>, field: Option<Json>, value: Json, failure: bool)
      returns (reply: Reply, executed: Option<seq<SqlPart>>)
      modifies this
      ensures executed.Some? ==>
        executed.value == UpdateQueryText(EditableFields[0]) || executed.value == UpdateQueryText(EditableFields[1])
      ensures !(field == Some(JStr(EditableFields[0])) || field == Some(JStr(EditableFields[1]))) ==>
        && reply == JsonReply(400, Body("message", InvalidField)) && executed == None && rows == old(rows)
      ensures (field == Some(JStr(EditableFields[0])) || field == Some(JStr(EditableFields[1]))) ==>
        var name := field.value.s;
        && executed == Some(UpdateQueryText(name))
        && (failure ==> reply == TextReply(500, UpdateFieldError) && rows == old(rows))
        && (!failure && (hardwareId.None? || hardwareId.value !in old(rows)) ==>
              reply == JsonReply(404, Body("message", HardwareNotFound)) && rows == old(rows))
        && (!failure && hardwareId.Some? && hardwareId.value in old(rows) ==>
              var updated := old(rows)[hardwareId.value][name := value];
              && rows == old(rows)[hardwareId.value := updated]
              && reply == JsonReply(200, JObj(map["message" := JStr(name + " updated successfully."), "item" := JObj(updated)])))
    {
      if !(field.Some? && field.value.JStr? && field.value.s in EditableFields) {
        return JsonReply(400, Body("message", InvalidField)), None;
      }
      var name := field.value.s;
      var updateQuery := UpdateQueryText(name);
      executed := Some(updateQuery);
      if failure {
        return TextReply(500, UpdateFieldError), executed;
      }
      if hardwareId.None? || hardwareId.value !in rows {
        return JsonReply(404, Body("message", HardwareNotFound)), executed;
      }
      var updated := rows[hardwareId.value][name := value];
      rows := rows[hardwareId.value := updated];
      reply := JsonReply(200, JObj(map["message" := JStr(name + " updated successfully."), "item" := JObj(updated)]));
    }
  }

  /** An update touches one column of one row: every other row and every other column keep their values. */
  lemma UpdateTouchesOneCell(rows: map<int, map<string, Json>>, id: int, name: string, value: Json)
    requires id in rows
    ensures var after := rows[id := rows[id][name := value]];
      && (forall k :: k in rows && k != id ==> k in after && after[k] == rows[k])
      && (forall col :: col in rows[id] && col != name ==> col in after[id] && after[id][col] == rows[id][col])
      && after[id][name] == value
  {
  }
}
