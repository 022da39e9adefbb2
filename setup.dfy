/** The bootstrap steps both versions of the client share: finding the
    bridge, validating a supplied address, judging the bridge's answer about
    a user, reading the username the bridge grants, and listing the light
    IDs. Each step works on the envelope of one HTTP call. Beside each, a
    reference reading states structurally which answers it accepts. */
module Setup {
  import opened Errors
  import opened PyJson
  import opened Http

  /** The cloud discovery endpoint. */
  const HUE_NUPNP := "https://www.meethue.com/api/nupnp"

  const NUPNP_REQUEST: Request := Get(HUE_NUPNP, Some(GET_TIMEOUT))

  const DEFAULT_APP_NAME := "My_Hue_App"

  /** What a finished bootstrap leaves in the client: the address, the
      user, the prefix of every light URL, and the light IDs. */
  datatype Session = Session(ip: Json, user: Json, baseURL: string, lightIDs: seq<string>)

  /** Python's truth test on the ip and user arguments: None and the empty
      string both mean "not supplied". */
  predicate Supplied(arg: Option<string>) {
    arg.Some? && arg.value != ""
  }

  // ---------------------------------------------------------------------
  // Discovery

  /** Reference reading: the address a discovery answer carries, namely
      the internalipaddress member of the first entry of an ok JSON list. */
  function DiscoveredAddress(o: Outcome): Option<Json> {
    if o.Delivered? && o.response.ok && o.response.body.JArr?
       && |o.response.body.items| > 0 && o.response.body.items[0].JObj?
    then Lookup(o.response.body.items[0].fields, "internalipaddress")
    else None
  }

  /** getBridgeIP: json[0]['internalipaddress'] of the discovery answer;
      every failure on the way, the transport's included, becomes IPError. */
  function GetBridgeIP(net: Network): (r: PyResult<Json>)
    ensures r.Raise? ==> r.exc == IPError
    ensures r.Ok? <==> DiscoveredAddress(net(NUPNP_REQUEST)).Some?
    ensures r.Ok? ==> r.value == DiscoveredAddress(net(NUPNP_REQUEST)).value
  {
    var found := (var data :- Send(net, NUPNP_REQUEST);
                  var body :- Subscript(data, Name("json"));
                  var first :- Subscript(body, Index(0));
                  Subscript(first, Name("internalipaddress")));
    if found.Ok? then found else Raise(IPError)
  }

  // ---------------------------------------------------------------------
  // Address validation

  /** The probe of a supplied address: the bridge's API root. */
  function ProbeRequest(ip: string): Request {
    Get("http://" + ip + "/api/", Some(GET_TIMEOUT))
  }

  /** The transport failures validateIP catches. */
  predicate CaughtOnProbe(kind: Transport) {
    kind == ConnectionError || kind == MissingSchema || kind == ConnectTimeout
  }

  /** validateIP: the supplied address is returned unchanged when the probe
      answers ok; an answer that is not ok, or a connection error, a missing
      schema or a connect timeout, is IPError; any other transport failure
      passes through. */
  function ValidateIP(ip: string, net: Network): (r: PyResult<string>)
    ensures r.Ok? ==> r.value == ip
    ensures r.Ok? <==> net(ProbeRequest(ip)).Delivered? && net(ProbeRequest(ip)).response.ok
    ensures r == Raise(IPError) <==>
              || (net(ProbeRequest(ip)).Delivered? && !net(ProbeRequest(ip)).response.ok)
              || (net(ProbeRequest(ip)).Failed? && CaughtOnProbe(net(ProbeRequest(ip)).kind))
    ensures net(ProbeRequest(ip)).Failed? && !CaughtOnProbe(net(ProbeRequest(ip)).kind) ==>
              r == Raise(TransportFailure(net(ProbeRequest(ip)).kind))
  {
    match Send(net, ProbeRequest(ip))
    case Raise(e) =>
      if e.TransportFailure? && CaughtOnProbe(e.kind) then Raise(IPError) else Raise(e)
    case Ok(data) =>
      match Subscript(data, Name("ok"))
      case Ok(flag) => if Truthy(flag) then Ok(ip) else Raise(IPError)
      case Raise(e) => Raise(e)
  }

  /** `self.validateIP(ip) if ip else self.getBridgeIP()`. */
  function ResolveIP(ipArg: Option<string>, net: Network): (r: PyResult<Json>)
    ensures Supplied(ipArg) ==> (r.Ok? <==> r == Ok(JStr(ipArg.value)))
    ensures Supplied(ipArg) ==> (r.Ok? <==> ValidateIP(ipArg.value, net).Ok?)
    ensures Supplied(ipArg) && r.Raise? ==> r.exc == ValidateIP(ipArg.value, net).exc
    ensures !Supplied(ipArg) ==> (r.Ok? <==> DiscoveredAddress(net(NUPNP_REQUEST)).Some?)
    ensures !Supplied(ipArg) && r.Ok? ==> r.value == DiscoveredAddress(net(NUPNP_REQUEST)).value
    ensures !Supplied(ipArg) && r.Raise? ==> r.exc == IPError
  {
    if Supplied(ipArg) then
      var ip :- ValidateIP(ipArg.value, net);
      Ok(JStr(ip))
    else
      GetBridgeIP(net)
  }

  // ---------------------------------------------------------------------
  // User validation

  /** Reference reading: a body that authorises a user is a dict whose
      config entry exists and is truthy. */
  predicate Approves(body: Json) {
    && body.JObj?
    && Lookup(body.fields, "config").Some?
    && Truthy(Lookup(body.fields, "config").value)
  }

  /** Reference reading: the bridge answered ok with an approving body. */
  predicate Authorizes(o: Outcome) {
    o.Delivered? && o.response.ok && Approves(o.response.body)
  }

  /** The check of validateUser on the envelope: the user is returned
      unchanged when the json entry is a dict with a truthy config entry;
      an envelope without json raises KeyError (it is not caught); any other
      body is UserError. */
  function CheckUser(data: Json, user: string): (r: PyResult<string>)
    ensures r.Ok? ==> r.value == user
    ensures r.Ok? <==> Subscript(data, Name("json")).Ok? && Approves(Subscript(data, Name("json")).value)
    ensures r == Raise(UserError) <==>
              Subscript(data, Name("json")).Ok? && !Approves(Subscript(data, Name("json")).value)
    ensures Subscript(data, Name("json")).Raise? ==> r == Subscript(data, Name("json")).PropagateFailure()
  {
    var body :- Subscript(data, Name("json"));
    if body.JObj? && Truthy(DictGet(body.fields, "config")) then Ok(user) else Raise(UserError)
  }

  /** Over a delivered answer: ok and approving is the user back, ok and not
      approving is UserError, not ok is KeyError. */
  lemma CheckUserOnEnvelope(response: Response, user: string)
    ensures CheckUser(EnvelopeOf(response), user).Ok? <==> Authorizes(Delivered(response))
    ensures response.ok && !Approves(response.body) ==> CheckUser(EnvelopeOf(response), user) == Raise(UserError)
    ensures !response.ok ==> CheckUser(EnvelopeOf(response), user) == Raise(KeyError)
  {
  }

  // ---------------------------------------------------------------------
  // User creation

  /** The payload of createUser: devicetype is AppName, '#', DeviceName. */
  function DeviceType(appName: string, deviceName: string): (p: Json)
    ensures p.JObj? && Keys(p.fields) == ["devicetype"]
    ensures Subscript(p, Name("devicetype")) == Ok(JStr(appName + "#" + deviceName))
  {
    JObj([("devicetype", JStr(appName + "#" + deviceName))])
  }

  /** Reference reading: the username of a body of the form
      [{"success": {"username": u}}, ...]. */
  function GrantedUsername(body: Json): Option<Json> {
    if body.JArr? && |body.items| > 0 && body.items[0].JObj? then
      match Lookup(body.items[0].fields, "success")
      case Some(JObj(success)) => Lookup(success, "username")
      case _ => None
    else None
  }

  /** Reference reading: the username an answer to createUser grants. */
  function MintedUsername(o: Outcome): Option<Json> {
    if o.Delivered? && o.response.ok then GrantedUsername(o.response.body) else None
  }

  /** Reference reading: the path json[0]['success']['username'] stops at
      a missing key. A dict has no key 0; a first entry that is a dict may
      lack success; a success that is a dict may lack username. */
  predicate KeyMissingOnPath(body: Json) {
    if body.JObj? then true
    else if body.JArr? && |body.items| > 0 && body.items[0].JObj? then
      match Lookup(body.items[0].fields, "success")
      case None => true
      case Some(success) => success.JObj? && Lookup(success.fields, "username").None?
    else false
  }

  /** Reference reading: the path stops at index 0 out of range, which
      happens on an empty list or an empty string. */
  predicate IndexMissingOnPath(body: Json) {
    (body.JArr? && |body.items| == 0) || (body.JStr? && |body.s| == 0)
  }

  /** The extraction of createUser: json[0]['success']['username']. A
      missing key is BridgeError, and this includes an envelope without
      json. Only KeyError is caught: index 0 out of range raises
      IndexError, and every other failure is the TypeError of subscripting
      a value of the wrong type. */
  function UsernameOf(data: Json): (r: PyResult<Json>)
    ensures r.Raise? ==> r.exc == BridgeError || r.exc == IndexError || r.exc == TypeError
    ensures r == Raise(BridgeError) <==>
              || Subscript(data, Name("json")) == Raise(KeyError)
              || (Subscript(data, Name("json")).Ok? && KeyMissingOnPath(Subscript(data, Name("json")).value))
    ensures r == Raise(IndexError) <==>
              Subscript(data, Name("json")).Ok? && IndexMissingOnPath(Subscript(data, Name("json")).value)
    ensures r.Raise? ==> r.exc != KeyError
    ensures r.Ok? <==> Subscript(data, Name("json")).Ok? && GrantedUsername(Subscript(data, Name("json")).value).Some?
    ensures r.Ok? ==> r.value == GrantedUsername(Subscript(data, Name("json")).value).value
    ensures Subscript(data, Name("json")) == Raise(KeyError) ==> r == Raise(BridgeError)
    ensures Subscript(data, Name("json")) == Ok(JArr([])) ==> r == Raise(IndexError)
  {
    var found := (var body :- Subscript(data, Name("json"));
                  var first :- Subscript(body, Index(0));
                  var success :- Subscript(first, Name("success"));
                  Subscript(success, Name("username")));
    if found == Raise(KeyError) then Raise(BridgeError) else found
  }

  /** Over a delivered answer: a granting body gives its username; the
      bridge's refusal [{"error": ...}] and an answer that is not ok are
      BridgeError. */
  lemma UsernameOfEnvelope(response: Response, description: Json)
    ensures UsernameOf(EnvelopeOf(response)).Ok? <==> MintedUsername(Delivered(response)).Some?
    ensures response.ok ==>
              (UsernameOf(EnvelopeOf(response)) == Raise(BridgeError) <==> KeyMissingOnPath(response.body))
    ensures UsernameOf(EnvelopeOf(response)) == Raise(IndexError) <==>
              response.ok && IndexMissingOnPath(response.body)
    ensures !response.ok ==> UsernameOf(EnvelopeOf(response)) == Raise(BridgeError)
    ensures response.ok && response.body == JArr([JObj([("error", description)])]) ==>
              UsernameOf(EnvelopeOf(response)) == Raise(BridgeError)
  {
    var refusal := [("error", description)];
    assert Lookup(refusal, "success") == Lookup(refusal[1..], "success") == None;
  }

  // ---------------------------------------------------------------------
  // Light enumeration

  /** Reference reading: the members of an ok dict answer. */
  function ListedLights(o: Outcome): Option<seq<(string, Json)>> {
    if o.Delivered? && o.response.ok && o.response.body.JObj?
    then Some(o.response.body.fields)
    else None
  }

  /** The list mapLights stores: the keys of json, in the dict's order.
      An envelope without json is KeyError; a body that is not a dict has
      no keys() (AttributeError). A decoded dict lists each ID once. */
  function LightIDsOf(data: Json): (r: PyResult<seq<string>>)
    ensures r.Ok? <==> Subscript(data, Name("json")).Ok? && Subscript(data, Name("json")).value.JObj?
    ensures r.Ok? ==> r.value == Keys(Subscript(data, Name("json")).value.fields)
    ensures r.Ok? ==> forall id :: id in r.value <==> Lookup(Subscript(data, Name("json")).value.fields, id).Some?
    ensures r.Ok? && Decoded(Subscript(data, Name("json")).value) ==> NoDuplicates(r.value)
    ensures Subscript(data, Name("json")).Raise? ==> r == Subscript(data, Name("json")).PropagateFailure()
    ensures Subscript(data, Name("json")).Ok? && !Subscript(data, Name("json")).value.JObj? ==>
              r == Raise(AttributeError)
    ensures r.Raise? ==> r.exc == KeyError || r.exc == TypeError || r.exc == AttributeError
  {
    var body :- Subscript(data, Name("json"));
    if body.JObj? then
      assert forall id :: id in Keys(body.fields) <==> Lookup(body.fields, id).Some? by {
        forall id ensures id in Keys(body.fields) <==> Lookup(body.fields, id).Some? {
          LookupFindsKeys(body.fields, id);
        }
      }
      Ok(Keys(body.fields))
    else
      Raise(AttributeError)
  }
}
