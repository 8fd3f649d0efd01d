/**
 * The preferences endpoint `/api/preferences` (pages/api/preferences.js): GET
 * returns the caller's record, creating it with the defaults on first access;
 * PUT overwrites or creates it; any other method is refused.
 *
 * The preferences table is a map from user id to record (its unique key is
 * the user id). `storeDown` says that the store throws on this request.
 */
module PreferencesApi {
  import opened Domain

  type UserId = string

  datatype Preferences = Preferences(startHour: int, endHour: int, notifications: bool, theme: string)

  /** The record created on a user's first GET. */
  const DefaultPreferences := Preferences(8, 18, true, "system")

  datatype Request = Request(httpMethod: string, body: Preferences)

  datatype Payload = Record(prefs: Preferences) | ErrorJson(error: string) | Text(text: string)

  /** Status, `Allow` header (empty when not set) and body of a reply. */
  datatype Reply = Reply(status: int, allow: seq<string>, payload: Payload)

  /** The caller's record after a GET: the stored one, or the defaults when there is none. */
  function GetOrCreate(records: map<UserId, Preferences>, userId: UserId): (r: (Preferences, map<UserId, Preferences>))
    ensures userId in r.1 && r.1[userId] == r.0
    ensures userId in records ==> r.0 == records[userId] && r.1 == records
    ensures userId !in records ==> r.0 == DefaultPreferences && r.1.Keys == records.Keys + {userId}
    ensures forall u :: u in records && u != userId ==> u in r.1 && r.1[u] == records[u]
  {
    if userId in records then (records[userId], records)
    else (DefaultPreferences, records[userId := DefaultPreferences])
  }

  /** A second GET returns what the first returned and creates nothing. */
  lemma GetOrCreateIdempotent(records: map<UserId, Preferences>, userId: UserId)
    ensures var (first, after) := GetOrCreate(records, userId);
            GetOrCreate(after, userId) == (first, after)
  {
  }

  /** The table after a PUT: the caller's record holds exactly the given fields. */
  function Upsert(records: map<UserId, Preferences>, userId: UserId, body: Preferences): (r: map<UserId, Preferences>)
    ensures userId in r && r[userId] == body
    ensures r.Keys == records.Keys + {userId}
    ensures forall u :: u in records && u != userId ==> r[u] == records[u]
  {
    records[userId := body]
  }

  /** A PUT followed by a GET returns what was put. */
  lemma UpsertThenGet(records: map<UserId, Preferences>, userId: UserId, body: Preferences)
    ensures GetOrCreate(Upsert(records, userId, body), userId) == (body, Upsert(records, userId, body))
  {
  }

  class PreferencesTable {
    var records: map<UserId, Preferences>

    constructor ()
      ensures records == map[]
    {
      records := map[];
    }
  }

  /** Handles one request to `/api/preferences`. */
  method Handler(table: PreferencesTable, session: Option<UserId>, req: Request, storeDown: bool)
    returns (reply: Reply)
    modifies table
    ensures session.None? ==> reply == Reply(401, [], ErrorJson("No autorizado")) && table.records == old(table.records)
    ensures session.Some? && req.httpMethod == "GET" ==>
      if storeDown then
        reply == Reply(500, [], ErrorJson("Error al obtener preferencias")) && table.records == old(table.records)
      else
        var (prefs, after) := GetOrCreate(old(table.records), session.value);
        reply == Reply(200, [], Record(prefs)) && table.records == after
    ensures session.Some? && req.httpMethod == "PUT" ==>
      if storeDown then
        reply == Reply(500, [], ErrorJson("Error al actualizar preferencias")) && table.records == old(table.records)
      else
        reply == Reply(200, [], Record(req.body)) && table.records == Upsert(old(table.records), session.value, req.body)
    ensures session.Some? && req.httpMethod != "GET" && req.httpMethod != "PUT" ==>
      && reply == Reply(405, ["GET", "PUT"], Text("Método " + req.httpMethod + " no permitido"))
      && table.records == old(table.records)
  {
    if session.None? {
      return Reply(401, [], ErrorJson("No autorizado"));
    }
    var userId := session.value;
    if req.httpMethod == "GET" {
      if storeDown {
        return Reply(500, [], ErrorJson("Error al obtener preferencias"));
      }
      var prefs;
      if userId in table.records {
        prefs := table.records[userId];
      } else {
        prefs := DefaultPreferences;
        table.records := table.records[userId := prefs];
      }
      return Reply(200, [], Record(prefs));
    } else if req.httpMethod == "PUT" {
      if storeDown {
        return Reply(500, [], ErrorJson("Error al actualizar preferencias"));
      }
      table.records := table.records[userId := req.body];
      return Reply(200, [], Record(req.body));
    } else {
      return Reply(405, ["GET", "PUT"], Text("Método " + req.httpMethod + " no permitido"));
    }
  }

  /** Two GETs by a new user: both return the defaults, and the table keeps one record for the user. */
  method GetTwice(table: PreferencesTable, userId: UserId) returns (first: Reply, second: Reply)
    requires userId !in table.records
    modifies table
    ensures first == second == Reply(200, [], Record(DefaultPreferences))
    ensures table.records == old(table.records)[userId := DefaultPreferences]
  {
    first := Handler(table, Some(userId), Request("GET", DefaultPreferences), false);
    second := Handler(table, Some(userId), Request("GET", DefaultPreferences), false);
  }
}
