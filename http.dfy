/** The client's three HTTP verbs. The network is a parameter: a function
    from the request the client issues to what came back, either a decoded
    response or a failure of the transport. */
module Http {
  import opened Errors
  import opened PyJson

  /** The timeout, in seconds, every GET issued through the client's get
      helper carries. */
  const GET_TIMEOUT: nat := 10

  /** A request as the client issues it: its verb, its URL, the GET
      timeout if one is set, and the JSON payload of a PUT or POST. */
  datatype Request =
    | Get(url: string, timeout: Option<nat>)
    | Put(url: string, payload: Json)
    | Post(url: string, payload: Json)

  /** A response of the transport: status code, ok flag and decoded body. */
  datatype Response = Response(statusCode: int, ok: bool, body: Json)

  datatype Outcome = Delivered(response: Response) | Failed(kind: Transport)

  type Network = Request -> Outcome

  /** The dict responseData builds: status_code and ok always, json only
      when the response is ok. */
  function EnvelopeOf(response: Response): (data: Json)
    ensures data.JObj? && DistinctKeys(data.fields)
    ensures Keys(data.fields) == ["status_code", "ok"] + (if response.ok then ["json"] else [])
    ensures Subscript(data, Name("status_code")) == Ok(JNum(response.statusCode))
    ensures Subscript(data, Name("ok")) == Ok(JBool(response.ok))
    ensures response.ok ==> Subscript(data, Name("json")) == Ok(response.body)
    ensures !response.ok ==> Subscript(data, Name("json")) == Raise(KeyError)
  {
    var fields := [("status_code", JNum(response.statusCode)), ("ok", JBool(response.ok))]
                  + (if response.ok then [("json", response.body)] else []);
    LookupAt(fields, 0);
    LookupAt(fields, 1);
    LookupFindsKeys(fields, "json");
    if response.ok then LookupAt(fields, 2); JObj(fields) else JObj(fields)
  }

  /** responseData: starts the dict with status_code and ok, and inserts
      json into it when the response is ok. */
  method ResponseData(response: Response) returns (data: Json)
    ensures data == EnvelopeOf(response)
  {
    var fields := [("status_code", JNum(response.statusCode)), ("ok", JBool(response.ok))];
    if response.ok {
      fields := fields + [("json", response.body)];
    }
    data := JObj(fields);
  }

  /** get, put and post: issue the request and wrap what comes back with
      responseData. A transport failure leaves as it is raised; a response
      that is not ok is returned, not raised. */
  function Send(net: Network, request: Request): (r: PyResult<Json>)
    ensures r.Raise? <==> net(request).Failed?
    ensures r.Raise? ==> r.exc == TransportFailure(net(request).kind)
    ensures r.Ok? ==> r.value == EnvelopeOf(net(request).response)
  {
    match net(request)
    case Failed(kind) => Raise(TransportFailure(kind))
    case Delivered(response) => Ok(EnvelopeOf(response))
  }
}
