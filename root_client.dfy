/** The client of the top-level module (pyphue.py). Its URLs are built by
    str.format; its baseURL carries the 'http://' scheme, its light URLs end
    in '/', and it keeps a dictionary of friendly light names. Its
    validateIP cannot succeed as written (ValidateIPAsWritten); the
    bootstrap uses the corrected validation, Setup.ValidateIP. */
module RootClient {
  import opened Errors
  import opened PyJson
  import opened Http
  import opened Setup
  import opened Lights

  const DEFAULT_DEVICE_NAME := "Default_Device JohnDoe"

  // ---------------------------------------------------------------------
  // validateIP as written

  /** validateIP as pyphue.py has it. When __init__ calls it, self.ip still
      holds the class default '', so the probe goes to 'http:///api/', a URL
      without a host, whatever address was supplied. The request bypasses
      the get helper, so it has no timeout and no envelope; were it ever
      answered, subscripting the raw response object with 'ok' would be a
      TypeError. There is no return statement, so success could only ever
      give None. */
  function ValidateIPAsWritten(ip: string, net: Network): (r: PyResult<Json>)
    ensures r.Raise?
    ensures r.exc == IPError || r.exc == TypeError || r.exc.TransportFailure?
  {
    var selfIP := "";
    match net(Get("http://" + selfIP + "/api/", None))
    case Failed(kind) =>
      if CaughtOnProbe(kind) then Raise(IPError) else Raise(TransportFailure(kind))
    case Delivered(_) =>
      Raise(TypeError)
  }

  /** A network as requests presents it, with a bridge behind every host:
      a URL without a host is refused before anything is sent (InvalidURL,
      a request exception none of the handlers catches), and every other
      request is answered 200 OK with an empty dict. */
  function RequestsWithBridge(request: Request): Outcome {
    if request.url == "http:///api/" then Failed(OtherRequestException)
    else Delivered(Response(200, true, JObj([])))
  }

  /** With a bridge at the supplied address, the corrected validation
      accepts it, while the probe as written never leaves the client: the
      constructor raises the InvalidURL of the hostless URL. */
  lemma ValidateIPAsWrittenRefusedByRequests(ip: string)
    requires ip != ""
    ensures ValidateIP(ip, RequestsWithBridge) == Ok(ip)
    ensures ValidateIPAsWritten(ip, RequestsWithBridge) == Raise(TransportFailure(OtherRequestException))
  {
    assert |ProbeRequest(ip).url| > |"http:///api/"|;
    assert "http://" + "" + "/api/" == "http:///api/";
  }

  /** On every network that refuses the hostless URL as requests does, the
      written validation raises that refusal whatever address it is given:
      it neither returns the address nor raises IPError. */
  lemma ValidateIPAsWrittenOnHostless(ip: string, net: Network)
    requires net(Get("http:///api/", None)) == Failed(OtherRequestException)
    ensures ValidateIPAsWritten(ip, net) == Raise(TransportFailure(OtherRequestException))
  {
    assert "http://" + "" + "/api/" == "http:///api/";
  }

  // ---------------------------------------------------------------------
  // Bootstrap steps of this version

  /** The GET of validateUser: 'http://{ip}/api/{user}'. */
  function UserRequest(ip: Json, user: string): Request {
    Get("http://" + Str(ip) + "/api/" + user, Some(GET_TIMEOUT))
  }

  /** validateUser: the user comes back unchanged iff the bridge answers ok
      with a dict whose config entry is truthy; an ok answer without a
      truthy config is UserError; an answer that is not ok has no json and
      raises KeyError; a transport failure passes. */
  function ValidateUser(ip: Json, user: string, net: Network): (r: PyResult<string>)
    ensures r.Ok? ==> r.value == user
    ensures r.Ok? <==> Authorizes(net(UserRequest(ip, user)))
    ensures var answer := net(UserRequest(ip, user));
            && (answer.Failed? ==> r == Raise(TransportFailure(answer.kind)))
            && (answer.Delivered? && !answer.response.ok ==> r == Raise(KeyError))
            && (answer.Delivered? && answer.response.ok && !Approves(answer.response.body) ==> r == Raise(UserError))
  {
    var data :- Send(net, Get("http://" + Str(ip) + "/api/" + user, Some(GET_TIMEOUT)));
    CheckUser(data, user)
  }

  /** The POST of createUser: 'http://{ip}/api/' with the devicetype
      payload. */
  function CreateUserRequest(ip: Json, appName: string, deviceName: string): Request {
    Post("http://" + Str(ip) + "/api/", DeviceType(appName, deviceName))
  }

  /** createUser: the username the bridge grants; a missing key, an answer
      that is not ok included, is BridgeError; KeyError itself never
      leaves. */
  function CreateUser(ip: Json, appName: string, deviceName: string, net: Network): (r: PyResult<Json>)
    ensures r.Ok? <==> MintedUsername(net(CreateUserRequest(ip, appName, deviceName))).Some?
    ensures r.Ok? ==> r.value == MintedUsername(net(CreateUserRequest(ip, appName, deviceName))).value
    ensures r.Raise? ==> r.exc != KeyError
    ensures var answer := net(CreateUserRequest(ip, appName, deviceName));
            && (answer.Failed? ==> r == Raise(TransportFailure(answer.kind)))
            && (answer.Delivered? && !answer.response.ok ==> r == Raise(BridgeError))
            && (answer.Delivered? && answer.response.ok ==>
                  (r == Raise(BridgeError) <==> KeyMissingOnPath(answer.response.body)))
            && (answer.Delivered? ==>
                  (r == Raise(IndexError) <==> answer.response.ok && IndexMissingOnPath(answer.response.body)))
  {
    var data :- Send(net, Post("http://" + Str(ip) + "/api/", DeviceType(appName, deviceName)));
    UsernameOfEnvelope(net(CreateUserRequest(ip, appName, deviceName)).response, JNull);
    UsernameOf(data)
  }

  /** `self.validateUser(user) if user else self.createUser()`. */
  function ResolveUser(ip: Json, userArg: Option<string>, appName: string, deviceName: string,
                       net: Network): (r: PyResult<Json>)
    ensures Supplied(userArg) ==> (r.Ok? <==> ValidateUser(ip, userArg.value, net).Ok?)
    ensures Supplied(userArg) && r.Ok? ==> r.value == JStr(userArg.value)
    ensures Supplied(userArg) && r.Raise? ==> r.exc == ValidateUser(ip, userArg.value, net).exc
    ensures !Supplied(userArg) ==> r == CreateUser(ip, appName, deviceName, net)
  {
    if Supplied(userArg) then
      var user :- ValidateUser(ip, userArg.value, net);
      Ok(JStr(user))
    else
      CreateUser(ip, appName, deviceName, net)
  }

  /** The GET of mapLights. */
  function LightsRequest(baseURL: string): Request {
    Get(baseURL + "/lights/", Some(GET_TIMEOUT))
  }

  /** What mapLights stores, or raises. */
  function Listing(baseURL: string, net: Network): (r: PyResult<seq<string>>)
    ensures r.Ok? <==> ListedLights(net(LightsRequest(baseURL))).Some?
    ensures r.Ok? ==> r.value == Keys(ListedLights(net(LightsRequest(baseURL))).value)
    ensures net(LightsRequest(baseURL)).Delivered? && !net(LightsRequest(baseURL)).response.ok ==>
              r == Raise(KeyError)
    ensures r.Ok? ==> forall id :: id in r.value <==> Lookup(ListedLights(net(LightsRequest(baseURL))).value, id).Some?
    ensures r.Ok? && Decoded(net(LightsRequest(baseURL)).response.body) ==> NoDuplicates(r.value)
  {
    var data :- Send(net, LightsRequest(baseURL));
    LightIDsOf(data)
  }

  /** The bootstrap of __init__, with the corrected address validation. */
  function Bootstrap(net: Network, ipArg: Option<string>, userArg: Option<string>,
                     appName: string, deviceName: string): PyResult<Session>
  {
    var (ip, user) :- Connect(net, ipArg, userArg, appName, deviceName);
    var baseURL := "http://" + Str(ip) + "/api/" + Str(user);
    var ids :- Listing(baseURL, net);
    Ok(Session(ip, user, baseURL, ids))
  }

  /** The first two steps of the bootstrap: the address, then the user. */
  function Connect(net: Network, ipArg: Option<string>, userArg: Option<string>,
                   appName: string, deviceName: string): PyResult<(Json, Json)>
  {
    var ip :- ResolveIP(ipArg, net);
    var user :- ResolveUser(ip, userArg, appName, deviceName, net);
    Ok((ip, user))
  }

  /** Once Connect has produced the address and the user, the bootstrap
      is the listing under their baseURL: the session of that listing, or
      the exception it raises. */
  lemma BootstrapSteps(net: Network, ipArg: Option<string>, userArg: Option<string>,
                       appName: string, deviceName: string, ip: Json, user: Json, baseURL: string)
    requires Connect(net, ipArg, userArg, appName, deviceName) == Ok((ip, user))
    requires baseURL == "http://" + Str(ip) + "/api/" + Str(user)
    ensures Bootstrap(net, ipArg, userArg, appName, deviceName)
            == match Listing(baseURL, net)
               case Ok(ids) => Ok(Session(ip, user, baseURL, ids))
               case Raise(exc) => Raise(exc)
  {
  }

  /** After a bootstrap that succeeds, ip is the supplied address or the
      discovered one; user is the supplied user or the one the bridge
      granted; baseURL is 'http://' ip '/api/' user; lightIDs are the keys
      of the dict the bridge listed under baseURL. */
  lemma BootstrapSession(net: Network, ipArg: Option<string>, userArg: Option<string>,
                         appName: string, deviceName: string)
    requires Bootstrap(net, ipArg, userArg, appName, deviceName).Ok?
    ensures var s := Bootstrap(net, ipArg, userArg, appName, deviceName).value;
            && (Supplied(ipArg) ==> s.ip == JStr(ipArg.value))
            && (Supplied(ipArg) ==>
                  net(ProbeRequest(ipArg.value)).Delivered? && net(ProbeRequest(ipArg.value)).response.ok)
            && (!Supplied(ipArg) ==> DiscoveredAddress(net(NUPNP_REQUEST)) == Some(s.ip))
            && (Supplied(userArg) ==> s.user == JStr(userArg.value))
            && (Supplied(userArg) ==> Authorizes(net(UserRequest(s.ip, userArg.value))))
            && (!Supplied(userArg) ==>
                  MintedUsername(net(CreateUserRequest(s.ip, appName, deviceName))) == Some(s.user))
            && s.baseURL == "http://" + Str(s.ip) + "/api/" + Str(s.user)
            && ListedLights(net(LightsRequest(s.baseURL))).Some?
            && s.lightIDs == Keys(ListedLights(net(LightsRequest(s.baseURL))).value)
            && (forall id :: id in s.lightIDs <==>
                  Lookup(ListedLights(net(LightsRequest(s.baseURL))).value, id).Some?)
            && (Decoded(net(LightsRequest(s.baseURL)).response.body) ==> NoDuplicates(s.lightIDs))
  {
    var s := Bootstrap(net, ipArg, userArg, appName, deviceName).value;
    var fields := ListedLights(net(LightsRequest(s.baseURL))).value;
    forall id ensures id in s.lightIDs <==> Lookup(fields, id).Some? {
      LookupFindsKeys(fields, id);
    }
  }

  /** Each step fails with its own error, and the first failing step
      decides. No address is IPError before any user is looked at. Once an
      address ip is resolved, supplied or discovered: a refused user is
      UserError, a handshake answered not ok or missing a key on the
      username path is BridgeError, and a lights answer that is not ok is
      KeyError. */
  lemma BootstrapFailures(net: Network, ipArg: Option<string>, userArg: Option<string>,
                          appName: string, deviceName: string, ip: Json, user: Json)
    ensures !Supplied(ipArg) && DiscoveredAddress(net(NUPNP_REQUEST)).None? ==>
              Bootstrap(net, ipArg, userArg, appName, deviceName) == Raise(IPError)
    ensures Supplied(ipArg)
            && (|| (net(ProbeRequest(ipArg.value)).Delivered? && !net(ProbeRequest(ipArg.value)).response.ok)
                || (net(ProbeRequest(ipArg.value)).Failed? && CaughtOnProbe(net(ProbeRequest(ipArg.value)).kind))) ==>
              Bootstrap(net, ipArg, userArg, appName, deviceName) == Raise(IPError)
    ensures ResolveIP(ipArg, net) == Ok(ip) && Supplied(userArg)
            && net(UserRequest(ip, userArg.value)).Delivered?
            && net(UserRequest(ip, userArg.value)).response.ok
            && !Approves(net(UserRequest(ip, userArg.value)).response.body) ==>
              Bootstrap(net, ipArg, userArg, appName, deviceName) == Raise(UserError)
    ensures ResolveIP(ipArg, net) == Ok(ip) && !Supplied(userArg)
            && net(CreateUserRequest(ip, appName, deviceName)).Delivered?
            && (|| !net(CreateUserRequest(ip, appName, deviceName)).response.ok
                || KeyMissingOnPath(net(CreateUserRequest(ip, appName, deviceName)).response.body)) ==>
              Bootstrap(net, ipArg, userArg, appName, deviceName) == Raise(BridgeError)
    ensures ResolveIP(ipArg, net) == Ok(ip) && ResolveUser(ip, userArg, appName, deviceName, net) == Ok(user)
            && net(LightsRequest("http://" + Str(ip) + "/api/" + Str(user))).Delivered?
            && !net(LightsRequest("http://" + Str(ip) + "/api/" + Str(user))).response.ok ==>
              Bootstrap(net, ipArg, userArg, appName, deviceName) == Raise(KeyError)
  {
    if ResolveIP(ipArg, net) == Ok(ip) && !Supplied(userArg) {
      var answer := net(CreateUserRequest(ip, appName, deviceName));
      if answer.Delivered? {
        UsernameOfEnvelope(answer.response, JNull);
      }
    }
  }

  // ---------------------------------------------------------------------
  // The client object

  class PyPHue {
    var appName: string
    var deviceName: string
    var wizard: bool
    var ip: Json
    var user: Json
    var baseURL: string
    var friendlyLights: map<string, string>
    var lightIDs: seq<string>

    /** A fresh instance holds the class-level defaults. */
    constructor ()
      ensures appName == "" && deviceName == "" && !wizard
      ensures ip == JStr("") && user == JStr("") && baseURL == ""
      ensures friendlyLights == map[] && lightIDs == []
    {
      appName, deviceName, wizard := "", "", false;
      ip, user, baseURL := JStr(""), JStr(""), "";
      friendlyLights, lightIDs := map[], [];
    }

    /** __init__: records the application identity, then assigns ip, user
        and baseURL in turn and maps the lights; the first exception ends
        it. The friendly names are not touched. */
    method Init(net: Network, ipArg: Option<string> := None, userArg: Option<string> := None,
                appName0: string := DEFAULT_APP_NAME, deviceName0: string := DEFAULT_DEVICE_NAME,
                wizard0: bool := false)
      returns (err: Option<Exc>)
      modifies this`appName, this`deviceName, this`wizard, this`ip, this`user, this`baseURL, this`lightIDs
      ensures appName == appName0 && deviceName == deviceName0 && wizard == wizard0
      ensures err.None? <==> Bootstrap(net, ipArg, userArg, appName0, deviceName0).Ok?
      ensures err.Some? ==> err.value == Bootstrap(net, ipArg, userArg, appName0, deviceName0).exc
      ensures err.None? ==>
                Session(ip, user, baseURL, lightIDs) == Bootstrap(net, ipArg, userArg, appName0, deviceName0).value
    {
      appName, deviceName, wizard := appName0, deviceName0, wizard0;
      err := Establish(net, ipArg, userArg);
      if err.Some? {
        return;
      }
      BootstrapSteps(net, ipArg, userArg, appName0, deviceName0, ip, user, baseURL);
      err := MapLights(net);
    }

    /** The first assignments of __init__: ip, then user (created under the
        object's application identity when none is supplied), then
        baseURL. */
    method Establish(net: Network, ipArg: Option<string>, userArg: Option<string>) returns (err: Option<Exc>)
      modifies this`ip, this`user, this`baseURL
      ensures err.None? <==> Connect(net, ipArg, userArg, appName, deviceName).Ok?
      ensures err.Some? ==> err.value == Connect(net, ipArg, userArg, appName, deviceName).exc
      ensures err.None? ==> (ip, user) == Connect(net, ipArg, userArg, appName, deviceName).value
      ensures err.None? ==> baseURL == "http://" + Str(ip) + "/api/" + Str(user)
    {
      var resolvedIP := ResolveIP(ipArg, net);
      if resolvedIP.Raise? {
        return Some(resolvedIP.exc);
      }
      ip := resolvedIP.value;
      var resolvedUser := ResolveUser(ip, userArg, appName, deviceName, net);
      if resolvedUser.Raise? {
        return Some(resolvedUser.exc);
      }
      user := resolvedUser.value;
      baseURL := "http://" + Str(ip) + "/api/" + Str(user);
      return None;
    }

    /** mapLights: lightIDs becomes the keys of the lights dict, in order;
        on an exception it keeps its value. */
    method MapLights(net: Network) returns (err: Option<Exc>)
      modifies this`lightIDs
      ensures err.None? <==> Listing(baseURL, net).Ok?
      ensures err.Some? ==> err.value == Listing(baseURL, net).exc && lightIDs == old(lightIDs)
      ensures err.None? ==> lightIDs == Listing(baseURL, net).value
    {
      match net(LightsRequest(baseURL))
      case Failed(kind) =>
        return Some(TransportFailure(kind));
      case Delivered(response) =>
        var lights := ResponseData(response);
        var body := Subscript(lights, Name("json"));
        if body.Raise? {
          return Some(body.exc);
        }
        if !body.value.JObj? {
          return Some(AttributeError);
        }
        var fields := body.value.fields;
        var ids: seq<string> := [];
        for i := 0 to |fields|
          invariant ids == Keys(fields[..i])
        {
          ids := ids + [fields[i].0];
        }
        assert fields[..|fields|] == fields;
        lightIDs := ids;
        return None;
    }

    /** assignLightName: name now maps to the light ID, overwriting an
        earlier assignment of the same name; every other name keeps its
        entry. */
    method AssignLightName(lightID: string, name: string)
      modifies this`friendlyLights
      ensures friendlyLights == old(friendlyLights)[name := lightID]
      ensures name in friendlyLights && friendlyLights[name] == lightID
      ensures friendlyLights.Keys == old(friendlyLights).Keys + {name}
      ensures forall other :: other in old(friendlyLights) && other != name ==>
                friendlyLights[other] == old(friendlyLights)[other]
    {
      friendlyLights := friendlyLights[name := lightID];
    }

    /** The read URL of a light: baseURL '/lights/' id '/'. */
    function InfoURL(lightID: string): string
      reads this
    {
      baseURL + "/lights/" + lightID + "/"
    }

    /** The write URL of a light: baseURL '/lights/' id '/state/'. */
    function StateURL(lightID: string): (u: string)
      reads this
      ensures u == InfoURL(lightID) + "state/"
    {
      baseURL + "/lights/" + lightID + "/state/"
    }

    /** lightInfo: the envelope of a GET of the light's read URL. */
    function LightInfo(lightID: string, net: Network): (r: PyResult<Json>)
      reads this
      ensures r == Send(net, Get(baseURL + "/lights/" + lightID + "/", Some(GET_TIMEOUT)))
    {
      Send(net, Get(InfoURL(lightID), Some(GET_TIMEOUT)))
    }

    /** toggle: reads state.on through lightInfo, then writes
        {'on': not on}; a read that fails raises, and nothing is written. */
    function Toggle(lightID: string, net: Network): (r: PyResult<Json>)
      reads this
      ensures var read := net(Get(InfoURL(lightID), Some(GET_TIMEOUT)));
              && (ReadState(read, "on").Some? ==>
                    r == Send(net, Put(StateURL(lightID), Payload("on", JBool(!Truthy(ReadState(read, "on").value))))))
              && (ReadState(read, "on").None? ==> r.Raise?)
              && (read.Failed? ==> r == Raise(TransportFailure(read.kind)))
              && (read.Delivered? && !read.response.ok ==> r == Raise(KeyError))
    {
      var light :- LightInfo(lightID, net);
      var on :- StateField(light, "on");
      Send(net, Put(baseURL + "/lights/" + lightID + "/state/", Payload("on", JBool(!Truthy(on)))))
    }

    /** Toggling twice, the second read reporting what the first toggle
        wrote: the first writes not on, the second writes the truth value of
        on, which restores on when it is a boolean. */
    lemma ToggleTwice(lightID: string, on: Json, first: Network, second: Network)
      requires first(Get(InfoURL(lightID), Some(GET_TIMEOUT))) == LightReporting("on", on)
      requires second(Get(InfoURL(lightID), Some(GET_TIMEOUT))) == LightReporting("on", JBool(!Truthy(on)))
      ensures Toggle(lightID, first) == Send(first, Put(StateURL(lightID), Payload("on", JBool(!Truthy(on)))))
      ensures Toggle(lightID, second) == Send(second, Put(StateURL(lightID), Payload("on", JBool(Truthy(on)))))
      ensures on.JBool? ==> Toggle(lightID, second) == Send(second, Put(StateURL(lightID), Payload("on", on)))
    {
      assert ReadState(LightReporting("on", on), "on") == Some(on);
      assert ReadState(LightReporting("on", JBool(!Truthy(on))), "on") == Some(JBool(!Truthy(on)));
    }

    /** turnOff: writes the constant {'on': False}. */
    function TurnOff(lightID: string, net: Network): (r: PyResult<Json>)
      reads this
      ensures r == Send(net, Put(InfoURL(lightID) + "state/", Payload("on", JBool(false))))
    {
      Send(net, Put(StateURL(lightID), Payload("on", JBool(false))))
    }

    /** turnOn: writes the constant {'on': True}. */
    function TurnOn(lightID: string, net: Network): (r: PyResult<Json>)
      reads this
      ensures r == Send(net, Put(InfoURL(lightID) + "state/", Payload("on", JBool(true))))
    {
      Send(net, Put(StateURL(lightID), Payload("on", JBool(true))))
    }

    /** getBrightness: state.bri of the light's description. */
    function GetBrightness(lightID: string, net: Network): (r: PyResult<Json>)
      reads this
      ensures r.Ok? <==> ReadState(net(Get(InfoURL(lightID), Some(GET_TIMEOUT))), "bri").Some?
      ensures r.Ok? ==> r.value == ReadState(net(Get(InfoURL(lightID), Some(GET_TIMEOUT))), "bri").value
      ensures var read := net(Get(InfoURL(lightID), Some(GET_TIMEOUT)));
              && (read.Failed? ==> r == Raise(TransportFailure(read.kind)))
              && (read.Delivered? && !read.response.ok ==> r == Raise(KeyError))
    {
      var light :- Send(net, Get(baseURL + "/lights/" + lightID + "/", Some(GET_TIMEOUT)));
      StateField(light, "bri")
    }

    /** setBrightness: writes {'bri': brightness}, the value unchecked. */
    function SetBrightness(lightID: string, brightness: Json, net: Network): (r: PyResult<Json>)
      reads this
      ensures r == Send(net, Put(InfoURL(lightID) + "state/", Payload("bri", brightness)))
    {
      Send(net, Put(StateURL(lightID), Payload("bri", brightness)))
    }

    /** getSaturation: state.sat of the light's description. */
    function GetSaturation(lightID: string, net: Network): (r: PyResult<Json>)
      reads this
      ensures r.Ok? <==> ReadState(net(Get(InfoURL(lightID), Some(GET_TIMEOUT))), "sat").Some?
      ensures r.Ok? ==> r.value == ReadState(net(Get(InfoURL(lightID), Some(GET_TIMEOUT))), "sat").value
      ensures var read := net(Get(InfoURL(lightID), Some(GET_TIMEOUT)));
              && (read.Failed? ==> r == Raise(TransportFailure(read.kind)))
              && (read.Delivered? && !read.response.ok ==> r == Raise(KeyError))
    {
      var light :- Send(net, Get(baseURL + "/lights/" + lightID + "/", Some(GET_TIMEOUT)));
      StateField(light, "sat")
    }

    /** setSaturation: writes {'sat': saturation}, the value unchecked. */
    function SetSaturation(lightID: string, saturation: Json, net: Network): (r: PyResult<Json>)
      reads this
      ensures r == Send(net, Put(InfoURL(lightID) + "state/", Payload("sat", saturation)))
    {
      Send(net, Put(StateURL(lightID), Payload("sat", saturation)))
    }

    /** getHue: state.hue of the light's description. */
    function GetHue(lightID: string, net: Network): (r: PyResult<Json>)
      reads this
      ensures r.Ok? <==> ReadState(net(Get(InfoURL(lightID), Some(GET_TIMEOUT))), "hue").Some?
      ensures r.Ok? ==> r.value == ReadState(net(Get(InfoURL(lightID), Some(GET_TIMEOUT))), "hue").value
      ensures var read := net(Get(InfoURL(lightID), Some(GET_TIMEOUT)));
              && (read.Failed? ==> r == Raise(TransportFailure(read.kind)))
              && (read.Delivered? && !read.response.ok ==> r == Raise(KeyError))
    {
      var light :- Send(net, Get(baseURL + "/lights/" + lightID + "/", Some(GET_TIMEOUT)));
      StateField(light, "hue")
    }

    /** setHue: writes {'hue': hue}, the value unchecked. */
    function SetHue(lightID: string, hue: Json, net: Network): (r: PyResult<Json>)
      reads this
      ensures r == Send(net, Put(InfoURL(lightID) + "state/", Payload("hue", hue)))
    {
      Send(net, Put(StateURL(lightID), Payload("hue", hue)))
    }
  }
}
