/**
 * The HTTP function in front of the key-value store
 * (netlify/functions/state.ts): it dispatches on the method, the `key`
 * query parameter and the body, answers with a status code and a JSON
 * payload, and writes the store on a valid PUT. CORS headers and logging
 * are not modelled. Whether the database answers is the parameter `dbUp`:
 * when it does not, the first store call throws.
 */
module StateHandler {
  import opened Wrappers
  import opened Json
  import opened StateStore

  /** `event.body`: absent or empty, not valid JSON, or a parsed document. */
  datatype Body = NoBody | Unparsable | Parsed(doc: Json)

  datatype Request = Request(httpMethod: string, key: Option<string>, body: Body)

  /** The response payloads the handler writes. */
  datatype Payload =
    | NoContent
    | Error(message: string)
    | Data(data: Json)
    | Success

  datatype Response = Response(status: int, payload: Payload)

  /** The key parameter is missing or the empty string. */
  predicate MissingKey(key: Option<string>) {
    key.None? || key.value == ""
  }

  /** A parsed body that is falsy or has no `data` field. */
  predicate LacksData(doc: Json) {
    Falsy(doc) || Prop(doc, "data").None?
  }

  /** The response and the new table contents for one request. */
  function Dispatch(req: Request, rows: map<string, Json>, dbUp: bool): (map<string, Json>, Response) {
    if req.httpMethod == "OPTIONS" then (rows, Response(204, NoContent))
    else if MissingKey(req.key) then (rows, Response(400, Error("Missing key parameter")))
    else if !dbUp then (rows, Response(500, Error("Server error")))
    else
      var key := req.key.value;
      if req.httpMethod == "GET" then
        var data := ReadOf(rows, key);
        if data == JNull then (rows, Response(404, Error("Not found")))
        else (rows, Response(200, Data(data)))
      else if req.httpMethod == "PUT" then
        match req.body
        case Unparsable => (rows, Response(500, Error("Server error")))
        case NoBody => (rows, Response(400, Error("Body must include data property")))
        case Parsed(doc) =>
          if LacksData(doc) then (rows, Response(400, Error("Body must include data property")))
          else (Upserted(rows, key, Prop(doc, "data").value), Response(200, Success))
      else (rows, Response(405, Error("Method not allowed")))
  }

  /** The handler itself, over the table. */
  method Handle(table: StateTable, req: Request, dbUp: bool) returns (resp: Response)
    modifies table
    ensures (table.rows, resp) == Dispatch(req, old(table.rows), dbUp)
  {
    if req.httpMethod == "OPTIONS" {
      return Response(204, NoContent);
    }
    if MissingKey(req.key) {
      return Response(400, Error("Missing key parameter"));
    }
    if !dbUp {
      return Response(500, Error("Server error"));
    }
    var key := req.key.value;
    table.EnsureStateTable();
    if req.httpMethod == "GET" {
      var data := table.ReadState(key);
      if data == JNull {
        return Response(404, Error("Not found"));
      }
      return Response(200, Data(data));
    }
    if req.httpMethod == "PUT" {
      if req.body.Unparsable? {
        return Response(500, Error("Server error"));
      }
      if req.body.NoBody? || LacksData(req.body.doc) {
        return Response(400, Error("Body must include data property"));
      }
      table.UpsertState(key, Prop(req.body.doc, "data").value);
      return Response(200, Success);
    }
    return Response(405, Error("Method not allowed"));
  }

  /** OPTIONS answers 204 with no body, whatever the key, and leaves the table alone. */
  lemma OptionsIsPreflight(req: Request, rows: map<string, Json>, dbUp: bool)
    requires req.httpMethod == "OPTIONS"
    ensures Dispatch(req, rows, dbUp) == (rows, Response(204, NoContent))
  {
  }

  /** Any other method without a key answers 400 and leaves the table alone. */
  lemma MissingKeyIsRejected(req: Request, rows: map<string, Json>, dbUp: bool)
    requires req.httpMethod != "OPTIONS" && MissingKey(req.key)
    ensures Dispatch(req, rows, dbUp).0 == rows && Dispatch(req, rows, dbUp).1.status == 400
  {
  }

  /** GET answers 404 exactly when the key reads as null, and otherwise 200 with the stored document. */
  lemma GetReadsStore(key: string, body: Body, rows: map<string, Json>)
    ensures var (rows', resp) := Dispatch(Request("GET", Some(key), body), rows, true);
      rows' == rows &&
      (key != "" ==> (resp.status == 404 <==> ReadOf(rows, key) == JNull)) &&
      (key != "" && ReadOf(rows, key) != JNull ==> resp == Response(200, Data(rows[key])))
  {
  }

  /** A PUT without a usable `data` property answers 400 and writes nothing. */
  lemma PutWithoutDataIsRejected(key: string, body: Body, rows: map<string, Json>)
    requires key != ""
    requires body.NoBody? || (body.Parsed? && LacksData(body.doc))
    ensures Dispatch(Request("PUT", Some(key), body), rows, true) ==
      (rows, Response(400, Error("Body must include data property")))
  {
  }

  /** A valid PUT stores `data` under the key, touches no other key and answers 200. */
  lemma PutStores(key: string, doc: Json, rows: map<string, Json>)
    requires key != "" && !LacksData(doc)
    ensures var (rows', resp) := Dispatch(Request("PUT", Some(key), Parsed(doc)), rows, true);
      resp == Response(200, Success) &&
      rows'[key] == doc.fields["data"] &&
      forall k :: k != key ==> ReadOf(rows', k) == ReadOf(rows, k)
  {
  }

  /** A method other than GET, PUT or OPTIONS answers 405 and writes nothing. */
  lemma OtherMethodNotAllowed(req: Request, rows: map<string, Json>)
    requires req.httpMethod !in {"GET", "PUT", "OPTIONS"} && !MissingKey(req.key)
    ensures Dispatch(req, rows, true) == (rows, Response(405, Error("Method not allowed")))
  {
  }

  /** A thrown error, from an unparsable body or an unreachable database, answers 500 and writes nothing. */
  lemma ErrorsAnswer500(req: Request, rows: map<string, Json>, dbUp: bool)
    requires req.httpMethod != "OPTIONS" && !MissingKey(req.key)
    requires !dbUp || (req.httpMethod == "PUT" && req.body.Unparsable?)
    ensures Dispatch(req, rows, dbUp) == (rows, Response(500, Error("Server error")))
  {
  }

  /**
   * PUT then GET on the same key gives back the data that was PUT, unless
   * that data is null: a stored null reads as not found.
   */
  lemma PutThenGet(key: string, doc: Json, body: Body, rows: map<string, Json>)
    requires key != "" && !LacksData(doc)
    ensures var (rows', _) := Dispatch(Request("PUT", Some(key), Parsed(doc)), rows, true);
      var (rows'', resp) := Dispatch(Request("GET", Some(key), body), rows', true);
      rows'' == rows' &&
      (doc.fields["data"] != JNull ==> resp == Response(200, Data(doc.fields["data"]))) &&
      (doc.fields["data"] == JNull ==> resp == Response(404, Error("Not found")))
  {
  }
}
