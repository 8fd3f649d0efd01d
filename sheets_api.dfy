/**
 * The collection endpoint `/api/sheets` (pages/api/sheets/index.js): GET
 * lists the caller's sheets newest first, POST creates the caller's sheet for
 * a day unless one exists, any other method is refused.
 *
 * The sheet table is a sequence of rows whose unique key is (userId, date).
 * The session is the caller's user id, if any. `storeDown` says that the
 * store throws on this request; the id and timestamp the store assigns to a
 * new row are parameters.
 */
module SheetsApi {
  import opened Domain
  import opened Ordering

  type UserId = string

  datatype SheetRow = SheetRow(
    id: SheetId,
    userId: UserId,
    date: Day,
    priorities: seq<string>,
    hours: seq<Slot>,
    brainDump: string,
    createdAt: int)

  /** Body of a POST. */
  datatype SheetBody = SheetBody(date: Day, priorities: seq<string>, hours: seq<Slot>, brainDump: string)

  datatype Request = Request(httpMethod: string, body: SheetBody)

  datatype Payload =
    | Rows(rows: seq<SheetRow>)
    | Row(row: SheetRow)
    | ErrorJson(error: string)
    | Text(text: string)

  /** Status, `Allow` header (empty when not set) and body of a reply. */
  datatype Reply = Reply(status: int, allow: seq<string>, payload: Payload)

  function RowDate(r: SheetRow): Day
  {
    r.date
  }

  /** The caller's rows, in table order. */
  function RowsOf(rows: seq<SheetRow>, userId: UserId): (mine: seq<SheetRow>)
    ensures forall r :: r in mine <==> r in rows && r.userId == userId
  {
    if rows == [] then []
    else if rows[0].userId == userId then [rows[0]] + RowsOf(rows[1..], userId)
    else RowsOf(rows[1..], userId)
  }

  /** The GET listing: the caller's rows, newest day first. */
  function Listing(rows: seq<SheetRow>, userId: UserId): (listed: seq<SheetRow>)
    ensures forall r :: r in listed <==> r in rows && r.userId == userId
    ensures forall i, j :: 0 <= i < j < |listed| ==> listed[i].date >= listed[j].date
  {
    var mine := RowsOf(rows, userId);
    var sorted := SortDesc(mine, RowDate);
    assert forall r :: r in sorted <==> r in mine by {
      forall r ensures r in sorted <==> r in mine { SortDescMembers(mine, RowDate, r); }
    }
    assert forall i, j :: 0 <= i < j < |sorted| ==> RowDate(sorted[i]) >= RowDate(sorted[j]);
    sorted
  }

  /** The row for (userId, date), if the table has one. */
  function FindRow(rows: seq<SheetRow>, userId: UserId, date: Day): (found: Option<SheetRow>)
    ensures found.None? <==> forall k :: 0 <= k < |rows| ==> !(rows[k].userId == userId && rows[k].date == date)
    ensures found.Some? ==> found.value in rows && found.value.userId == userId && found.value.date == date
  {
    if rows == [] then None
    else if rows[0].userId == userId && rows[0].date == date then Some(rows[0])
    else FindRow(rows[1..], userId, date)
  }

  /** No two rows share (userId, date): the table's unique index. */
  ghost predicate UniqueKeys(rows: seq<SheetRow>)
  {
    forall i, j :: 0 <= i < j < |rows| ==> !(rows[i].userId == rows[j].userId && rows[i].date == rows[j].date)
  }

  /** The caller's rows have distinct days, so the listing is strictly newest first. */
  lemma ListingStrict(rows: seq<SheetRow>, userId: UserId, i: nat, j: nat)
    requires UniqueKeys(rows)
    requires i < j < |Listing(rows, userId)|
    ensures Listing(rows, userId)[i].date > Listing(rows, userId)[j].date
  {
    var mine := RowsOf(rows, userId);
    RowsOfDistinctDates(rows, userId);
    SortDescStrict(mine, RowDate, i, j);
  }

  /** The caller's rows, like the table, have one row per day. */
  lemma {:induction false} RowsOfDistinctDates(rows: seq<SheetRow>, userId: UserId)
    requires UniqueKeys(rows)
    ensures DistinctKeys(RowsOf(rows, userId), RowDate)
  {
    if rows != [] {
      RowsOfDistinctDates(rows[1..], userId);
      var rest := RowsOf(rows[1..], userId);
      if rows[0].userId == userId {
        forall j | 0 <= j < |rest|
          ensures rows[0].date != rest[j].date
        {
          assert rest[j] in rows[1..];
        }
      }
    }
  }

  class SheetTable {
    var rows: seq<SheetRow>

    ghost predicate Valid()
      reads this
    {
      UniqueKeys(rows)
    }

    constructor ()
      ensures rows == [] && Valid()
    {
      rows := [];
    }
  }

  /** Handles one request to `/api/sheets`. */
  method Handler(table: SheetTable, session: Option<UserId>, req: Request, storeDown: bool, newId: SheetId, now: int)
    returns (reply: Reply)
    requires table.Valid()
    modifies table
    ensures table.Valid()
    ensures session.None? ==> reply == Reply(401, [], ErrorJson("No autorizado")) && table.rows == old(table.rows)
    ensures session.Some? && req.httpMethod == "GET" ==>
      && table.rows == old(table.rows)
      && reply == if storeDown then Reply(500, [], ErrorJson("Error al obtener las hojas"))
                  else Reply(200, [], Rows(Listing(old(table.rows), session.value)))
    ensures session.Some? && req.httpMethod == "POST" ==>
      if storeDown then
        reply == Reply(500, [], ErrorJson("Error al crear la hoja")) && table.rows == old(table.rows)
      else if FindRow(old(table.rows), session.value, req.body.date).Some? then
        reply == Reply(400, [], ErrorJson("Ya existe una hoja para esta fecha")) && table.rows == old(table.rows)
      else
        var row := SheetRow(newId, session.value, req.body.date, req.body.priorities, req.body.hours, req.body.brainDump, now);
        reply == Reply(201, [], Row(row)) && table.rows == old(table.rows) + [row]
    ensures session.Some? && req.httpMethod != "GET" && req.httpMethod != "POST" ==>
      && reply == Reply(405, ["GET", "POST"], Text("Método " + req.httpMethod + " no permitido"))
      && table.rows == old(table.rows)
  {
    if session.None? {
      return Reply(401, [], ErrorJson("No autorizado"));
    }
    var userId := session.value;
    if req.httpMethod == "GET" {
      if storeDown {
        return Reply(500, [], ErrorJson("Error al obtener las hojas"));
      }
      return Reply(200, [], Rows(Listing(table.rows, userId)));
    } else if req.httpMethod == "POST" {
      if storeDown {
        return Reply(500, [], ErrorJson("Error al crear la hoja"));
      }
      var existing := FindRow(table.rows, userId, req.body.date);
      if existing.Some? {
        return Reply(400, [], ErrorJson("Ya existe una hoja para esta fecha"));
      }
      var row := SheetRow(newId, userId, req.body.date, req.body.priorities, req.body.hours, req.body.brainDump, now);
      table.rows := table.rows + [row];
      return Reply(201, [], Row(row));
    } else {
      return Reply(405, ["GET", "POST"], Text("Método " + req.httpMethod + " no permitido"));
    }
  }

  /** A second POST for the same day is refused and the caller keeps one sheet for it. */
  method PostTwice(body: SheetBody, userId: UserId, id1: SheetId, id2: SheetId, now: int) returns (first: Reply, second: Reply)
    ensures first.status == 201 && second.status == 400
  {
    var table := new SheetTable();
    first := Handler(table, Some(userId), Request("POST", body), false, id1, now);
    assert FindRow(table.rows, userId, body.date).Some? by {
      assert table.rows[0].userId == userId && table.rows[0].date == body.date;
    }
    second := Handler(table, Some(userId), Request("POST", body), false, id2, now);
  }
}
