/** The client of the installable package (pyphue/pyphue.py). Its URLs are
    built by url(), which joins its arguments with '/' behind 'http://'; its
    baseURL holds no scheme. */
module PackageClient {
  import opened Errors
  import opened PyJson
  import opened Http
  import opened Setup
  import opened Lights

  const DEFAULT_DEVICE_NAME := "Default_Device:JohnDoe"

  /** url(*args): 'http://' followed by the arguments joined with '/'. */
  function Url(args: seq<string>): (u: string)
    ensures |u| >= 7 && u[..7] == "http://"
    ensures |args| == 1 ==> u == "http://" + args[0]
  {
    "http://" + Join(args, "/")
  }

  /** The two-argument URL the client builds, spelt out. */
  lemma UrlOfTwoParts(a: string, b: string)
    ensures Url([a, b]) == "http://" + a + "/" + b
  {
    assert Join([b], "/") == b;
    assert [a, b][1..] == [b];
    assert Join([a, b], "/") == a + "/" + b;
  }

  /** The two- and three-argument URLs the client builds, spelt out. */
  lemma UrlOfParts(a: string, b: string, c: string)
    ensures Url([a, b]) == "http://" + a + "/" + b
    ensures Url([a, b, c]) == "http://" + a + "/" + b + "/" + c
  {
    UrlOfTwoParts(a, b);
    assert Join([c], "/") == c;
    assert [b, c][1..] == [c];
    assert Join([b, c], "/") == b + "/" + c;
    assert [a, b, c][1..] == [b, c];
    assert Join([a, b, c], "/") == a + "/" + (b + "/" + c);
  }

  /** The path of a URL splits at '/' into exactly the arguments, when no
      argument holds a '/'. */
  lemma UrlSegments(args: seq<string>)
    requires |args| > 0
    requires forall a :: a in args ==> '/' !in a
    ensures Split(Url(args)[7..], '/') == args
  {
    assert Url(args)[7..] == Join(args, ['/']);
    SplitJoin(args, '/');
  }

  // ---------------------------------------------------------------------
  // Bootstrap steps of this version

  /** The GET of validateUser: url(ip, 'api', user). */
  function UserRequest(host: string, user: string): (req: Request)
    ensures req == Get("http://" + host + "/api/" + user, Some(GET_TIMEOUT))
  {
    UrlOfParts(host, "api", user);
    assert "http://" + host + "/" + "api" + "/" == "http://" + host + "/api/";
    Get(Url([host, "api", user]), Some(GET_TIMEOUT))
  }

  /** validateUser: the user comes back unchanged iff the address is a
      string and the bridge answers ok with a dict whose config entry is
      truthy. An address that is not a string is a TypeError of url(); an
      ok answer without a truthy config is UserError; an answer that is not
      ok has no json and raises KeyError; a transport failure passes. */
  function ValidateUser(ip: Json, user: string, net: Network): (r: PyResult<string>)
    ensures r.Ok? ==> r.value == user
    ensures r.Ok? <==> ip.JStr? && Authorizes(net(UserRequest(ip.s, user)))
    ensures !ip.JStr? ==> r == Raise(TypeError)
    ensures ip.JStr? ==>
              var answer := net(UserRequest(ip.s, user));
              && (answer.Failed? ==> r == Raise(TransportFailure(answer.kind)))
              && (answer.Delivered? && !answer.response.ok ==> r == Raise(KeyError))
              && (answer.Delivered? && answer.response.ok && !Approves(answer.response.body) ==> r == Raise(UserError))
  {
    var host :- AsStr(ip);
    var data :- Send(net, Get(Url([host, "api", user]), Some(GET_TIMEOUT)));
    CheckUser(data, user)
  }

  /** The POST of createUser: url(ip, 'api') with the devicetype payload. */
  function CreateUserRequest(host: string, appName: string, deviceName: string): (req: Request)
    ensures req == Post("http://" + host + "/api", DeviceType(appName, deviceName))
  {
    UrlOfTwoParts(host, "api");
    assert "http://" + host + "/" + "api" == "http://" + host + "/api";
    Post(Url([host, "api"]), DeviceType(appName, deviceName))
  }

  /** createUser: the username the bridge grants. An address that is not a
      string is a TypeError of url(); a missing key, an answer that is not
      ok included, is BridgeError; KeyError itself never leaves. */
  function CreateUser(ip: Json, appName: string, deviceName: string, net: Network): (r: PyResult<Json>)
    ensures r.Ok? <==> ip.JStr? && MintedUsername(net(CreateUserRequest(ip.s, appName, deviceName))).Some?
    ensures r.Ok? ==> r.value == MintedUsername(net(CreateUserRequest(ip.s, appName, deviceName))).value
    ensures !ip.JStr? ==> r == Raise(TypeError)
    ensures r.Raise? ==> r.exc != KeyError
    ensures ip.JStr? ==>
              var answer := net(CreateUserRequest(ip.s, appName, deviceName));
              && (answer.Failed? ==> r == Raise(TransportFailure(answer.kind)))
              && (answer.Delivered? && !answer.response.ok ==> r == Raise(BridgeError))
              && (answer.Delivered? && answer.response.ok ==>
                    (r == Raise(BridgeError) <==> KeyMissingOnPath(answer.response.body)))
              && (answer.Delivered? ==>
                    (r == Raise(IndexError) <==> answer.response.ok && IndexMissingOnPath(answer.response.body)))
  {
    var host :- AsStr(ip);
    var data :- Send(net, Post(Url([host, "api"]), DeviceType(appName, deviceName)));
    UsernameOfEnvelope(net(CreateUserRequest(host, appName, deviceName)).response, JNull);
    UsernameOf(data)
  }

  /** `self.validateUser(user) if user else self.createUser()`. */
  function ResolveUser(ip: Json, userArg: Option<string>, appName: string, deviceName: string,
                       net: Network): (r: PyResult<Json>)
    ensures Supplied(userArg) ==> (r.Ok? <==> ValidateUser(ip, userArg.value, net).Ok?)
    ensures Supplied(userArg) && r.Ok? ==> r.value == JStr(userArg.value)
    ensures Supplied(userArg) && r.Raise? ==> r.exc == ValidateUser(ip, userArg.value, net).exc
    ensures !Supplied(userArg) ==> r == CreateUser(ip, appName, deviceName, net)
  {
    if Supplied(userArg) then
      var user :- ValidateUser(ip, userArg.value, net);
      Ok(JStr(user))
    else
      CreateUser(ip, appName, deviceName, net)
  }

  /** The GET of mapLights. */
  function LightsRequest(baseURL: string): Request {
    Get("http://" + baseURL + "/lights/", Some(GET_TIMEOUT))
  }

  /** What mapLights stores, or raises. */
  function Listing(baseURL: string, net: Network): (r: PyResult<seq<string>>)
    ensures r.Ok? <==> ListedLights(net(LightsRequest(baseURL))).Some?
    ensures r.Ok? ==> r.value == Keys(ListedLights(net(LightsRequest(baseURL))).value)
    ensures net(LightsRequest(baseURL)).Delivered? && !net(LightsRequest(baseURL)).response.ok ==>
              r == Raise(KeyError)
    ensures r.Ok? && Decoded(net(LightsRequest(baseURL)).response.body) ==> NoDuplicates(r.value)
  {
    var data :- Send(net, LightsRequest(baseURL));
    LightIDsOf(data)
  }

  /** The bootstrap of __init__: the address is validated or discovered,
      then the user is validated or created against it, then baseURL is
      address '/api/' user, then the light IDs are listed under it. */
  function Bootstrap(net: Network, ipArg: Option<string>, userArg: Option<string>,
                     appName: string, deviceName: string): PyResult<Session>
  {
    var (ip, user) :- Connect(net, ipArg, userArg, appName, deviceName);
    var baseURL := Str(ip) + "/api/" + Str(user);
    var ids :- Listing(baseURL, net);
    Ok(Session(ip, user, baseURL, ids))
  }

  /** The first two steps of the bootstrap: the address, then the user. */
  function Connect(net: Network, ipArg: Option<string>, userArg: Option<string>,
                   appName: string, deviceName: string): PyResult<(Json, Json)>
  {
    var ip :- ResolveIP(ipArg, net);
    var user :- ResolveUser(ip, userArg, appName, deviceName, net);
    Ok((ip, user))
  }

  /** Once Connect has produced the address and the user, the bootstrap
      is the listing under their baseURL: the session of that listing, or
      the exception it raises. */
  lemma BootstrapSteps(net: Network, ipArg: Option<string>, userArg: Option<string>,
                       appName: string, deviceName: string, ip: Json, user: Json, baseURL: string)
    requires Connect(net, ipArg, userArg, appName, deviceName) == Ok((ip, user))
    requires baseURL == Str(ip) + "/api/" + Str(user)
    ensures Bootstrap(net, ipArg, userArg, appName, deviceName)
            == match Listing(baseURL, net)
               case Ok(ids) => Ok(Session(ip, user, baseURL, ids))
               case Raise(exc) => Raise(exc)
  {
  }

  /** After a bootstrap that succeeds, ip is the supplied address or the
      discovered one; user is the supplied user or the one the bridge
      granted to that address; baseURL is ip '/api/' user; and lightIDs are
      the keys of the dict the bridge listed under baseURL, so that an ID is
      listed exactly when the dict holds it. */
  lemma BootstrapSession(net: Network, ipArg: Option<string>, userArg: Option<string>,
                         appName: string, deviceName: string)
    requires Bootstrap(net, ipArg, userArg, appName, deviceName).Ok?
    ensures var s := Bootstrap(net, ipArg, userArg, appName, deviceName).value;
            && s.ip.JStr?
            && (Supplied(ipArg) ==> s.ip == JStr(ipArg.value))
            && (Supplied(ipArg) ==>
                  net(ProbeRequest(ipArg.value)).Delivered? && net(ProbeRequest(ipArg.value)).response.ok)
            && (!Supplied(ipArg) ==> DiscoveredAddress(net(NUPNP_REQUEST)) == Some(s.ip))
            && (Supplied(userArg) ==> s.user == JStr(userArg.value))
            && (Supplied(userArg) ==> Authorizes(net(UserRequest(s.ip.s, userArg.value))))
            && (!Supplied(userArg) ==>
                  MintedUsername(net(CreateUserRequest(s.ip.s, appName, deviceName))) == Some(s.user))
            && s.baseURL == s.ip.s + "/api/" + Str(s.user)
            && ListedLights(net(LightsRequest(s.baseURL))).Some?
            && s.lightIDs == Keys(ListedLights(net(LightsRequest(s.baseURL))).value)
            && (forall id :: id in s.lightIDs <==>
                  Lookup(ListedLights(net(LightsRequest(s.baseURL))).value, id).Some?)
            && (Decoded(net(LightsRequest(s.baseURL)).response.body) ==> NoDuplicates(s.lightIDs))
  {
    var s := Bootstrap(net, ipArg, userArg, appName, deviceName).value;
    var fields := ListedLights(net(LightsRequest(s.baseURL))).value;
    forall id ensures id in s.lightIDs <==> Lookup(fields, id).Some? {
      LookupFindsKeys(fields, id);
    }
  }

  /** Each step fails with its own error, and the first failing step
      decides. No address is IPError before any user is looked at. Once an
      address h is resolved, supplied or discovered: a refused user is
      UserError, a handshake answered not ok or missing a key on the
      username path is BridgeError, and a lights answer that is not ok is
      KeyError. An address that is not a string is the TypeError of url(). */
  lemma BootstrapFailures(net: Network, ipArg: Option<string>, userArg: Option<string>,
                          appName: string, deviceName: string, h: string, user: Json)
    ensures !Supplied(ipArg) && DiscoveredAddress(net(NUPNP_REQUEST)).None? ==>
              Bootstrap(net, ipArg, userArg, appName, deviceName) == Raise(IPError)
    ensures Supplied(ipArg)
            && (|| (net(ProbeRequest(ipArg.value)).Delivered? && !net(ProbeRequest(ipArg.value)).response.ok)
                || (net(ProbeRequest(ipArg.value)).Failed? && CaughtOnProbe(net(ProbeRequest(ipArg.value)).kind))) ==>
              Bootstrap(net, ipArg, userArg, appName, deviceName) == Raise(IPError)
    ensures ResolveIP(ipArg, net).Ok? && !ResolveIP(ipArg, net).value.JStr? ==>
              Bootstrap(net, ipArg, userArg, appName, deviceName) == Raise(TypeError)
    ensures ResolveIP(ipArg, net) == Ok(JStr(h)) && Supplied(userArg)
            && net(UserRequest(h, userArg.value)).Delivered?
            && net(UserRequest(h, userArg.value)).response.ok
            && !Approves(net(UserRequest(h, userArg.value)).response.body) ==>
              Bootstrap(net, ipArg, userArg, appName, deviceName) == Raise(UserError)
    ensures ResolveIP(ipArg, net) == Ok(JStr(h)) && !Supplied(userArg)
            && net(CreateUserRequest(h, appName, deviceName)).Delivered?
            && (|| !net(CreateUserRequest(h, appName, deviceName)).response.ok
                || KeyMissingOnPath(net(CreateUserRequest(h, appName, deviceName)).response.body)) ==>
              Bootstrap(net, ipArg, userArg, appName, deviceName) == Raise(BridgeError)
    ensures ResolveIP(ipArg, net) == Ok(JStr(h)) && ResolveUser(JStr(h), userArg, appName, deviceName, net) == Ok(user)
            && net(LightsRequest(h + "/api/" + Str(user))).Delivered?
            && !net(LightsRequest(h + "/api/" + Str(user))).response.ok ==>
              Bootstrap(net, ipArg, userArg, appName, deviceName) == Raise(KeyError)
  {
    if ResolveIP(ipArg, net) == Ok(JStr(h)) && !Supplied(userArg) {
      var answer := net(CreateUserRequest(h, appName, deviceName));
      if answer.Delivered? {
        UsernameOfEnvelope(answer.response, JNull);
      }
    }
  }

  // ---------------------------------------------------------------------
  // The client object

  class PyPHue {
    var appName: string
    var deviceName: string
    var wizard: bool
    var ip: Json
    var user: Json
    var baseURL: string
    var lightIDs: seq<string>

    /** A fresh instance holds the class-level defaults. */
    constructor ()
      ensures appName == "" && deviceName == "" && !wizard
      ensures ip == JStr("") && user == JStr("") && baseURL == "" && lightIDs == []
    {
      appName, deviceName, wizard := "", "", false;
      ip, user, baseURL, lightIDs := JStr(""), JStr(""), "", [];
    }

    /** __init__: records the application identity, then assigns ip, user
        and baseURL in turn and maps the lights; the first exception ends
        it. */
    method Init(net: Network, ipArg: Option<string> := None, userArg: Option<string> := None,
                appName0: string := DEFAULT_APP_NAME, deviceName0: string := DEFAULT_DEVICE_NAME,
                wizard0: bool := false)
      returns (err: Option<Exc>)
      modifies this`appName, this`deviceName, this`wizard, this`ip, this`user, this`baseURL, this`lightIDs
      ensures appName == appName0 && deviceName == deviceName0 && wizard == wizard0
      ensures err.None? <==> Bootstrap(net, ipArg, userArg, appName0, deviceName0).Ok?
      ensures err.Some? ==> err.value == Bootstrap(net, ipArg, userArg, appName0, deviceName0).exc
      ensures err.None? ==>
                Session(ip, user, baseURL, lightIDs) == Bootstrap(net, ipArg, userArg, appName0, deviceName0).value
    {
      appName, deviceName, wizard := appName0, deviceName0, wizard0;
      err := Establish(net, ipArg, userArg);
      if err.Some? {
        return;
      }
      BootstrapSteps(net, ipArg, userArg, appName0, deviceName0, ip, user, baseURL);
      err := MapLights(net);
    }

    /** The first assignments of __init__: ip, then user (created under the
        object's application identity when none is supplied), then
        baseURL. */
    method Establish(net: Network, ipArg: Option<string>, userArg: Option<string>) returns (err: Option<Exc>)
      modifies this`ip, this`user, this`baseURL
      ensures err.None? <==> Connect(net, ipArg, userArg, appName, deviceName).Ok?
      ensures err.Some? ==> err.value == Connect(net, ipArg, userArg, appName, deviceName).exc
      ensures err.None? ==> (ip, user) == Connect(net, ipArg, userArg, appName, deviceName).value
      ensures err.None? ==> baseURL == Str(ip) + "/api/" + Str(user)
    {
      var resolvedIP := ResolveIP(ipArg, net);
      if resolvedIP.Raise? {
        return Some(resolvedIP.exc);
      }
      ip := resolvedIP.value;
      var resolvedUser := ResolveUser(ip, userArg, appName, deviceName, net);
      if resolvedUser.Raise? {
        return Some(resolvedUser.exc);
      }
      user := resolvedUser.value;
      baseURL := Str(ip) + "/api/" + Str(user);
      return None;
    }

    /** mapLights: lightIDs becomes the keys of the lights dict, in order;
        on an exception it keeps its value. */
    method MapLights(net: Network) returns (err: Option<Exc>)
      modifies this`lightIDs
      ensures err.None? <==> Listing(baseURL, net).Ok?
      ensures err.Some? ==> err.value == Listing(baseURL, net).exc && lightIDs == old(lightIDs)
      ensures err.None? ==> lightIDs == Listing(baseURL, net).value
    {
      match net(LightsRequest(baseURL))
      case Failed(kind) =>
        return Some(TransportFailure(kind));
      case Delivered(response) =>
        var lights := ResponseData(response);
        var body := Subscript(lights, Name("json"));
        if body.Raise? {
          return Some(body.exc);
        }
        if !body.value.JObj? {
          return Some(AttributeError);
        }
        var fields := body.value.fields;
        var ids: seq<string> := [];
        for i := 0 to |fields|
          invariant ids == Keys(fields[..i])
        {
          ids := ids + [fields[i].0];
        }
        assert fields[..|fields|] == fields;
        lightIDs := ids;
        return None;
    }

    /** lightURL: url(baseURL, 'lights', id), with '/state' appended for
        the state sub-resource. */
    function LightURL(lightID: string, state: bool := false): (u: string)
      reads this
      ensures u == "http://" + baseURL + "/lights/" + lightID + (if state then "/state" else "")
    {
      UrlOfParts(baseURL, "lights", lightID);
      assert "http://" + baseURL + "/" + "lights" + "/" == "http://" + baseURL + "/lights/";
      Url([baseURL, "lights", lightID]) + (if state then "/state" else "")
    }

    /** putLight: always the state form of the light URL. */
    function PutLight(lightID: string, payload: Json, net: Network): (r: PyResult<Json>)
      reads this
      ensures r == Send(net, Put("http://" + baseURL + "/lights/" + lightID + "/state", payload))
    {
      Send(net, Put(LightURL(lightID, true), payload))
    }

    /** getLight: never the state form. */
    function GetLight(lightID: string, net: Network): (r: PyResult<Json>)
      reads this
      ensures r == Send(net, Get("http://" + baseURL + "/lights/" + lightID, Some(GET_TIMEOUT)))
    {
      assert "http://" + baseURL + "/lights/" + lightID + "" == "http://" + baseURL + "/lights/" + lightID;
      Send(net, Get(LightURL(lightID), Some(GET_TIMEOUT)))
    }

    /** toggle: reads state.on, then writes {'on': not on}; a read that
        fails raises, and nothing is written. */
    function Toggle(lightID: string, net: Network): (r: PyResult<Json>)
      reads this
      ensures var read := net(Get(LightURL(lightID), Some(GET_TIMEOUT)));
              && (ReadState(read, "on").Some? ==>
                    r == Send(net, Put(LightURL(lightID, true), Payload("on", JBool(!Truthy(ReadState(read, "on").value))))))
              && (ReadState(read, "on").None? ==> r.Raise?)
              && (read.Failed? ==> r == Raise(TransportFailure(read.kind)))
              && (read.Delivered? && !read.response.ok ==> r == Raise(KeyError))
    {
      var light :- GetLight(lightID, net);
      var on :- StateField(light, "on");
      PutLight(lightID, Payload("on", JBool(!Truthy(on))), net)
    }

    /** Toggling twice, the second read reporting what the first toggle
        wrote: the first writes not on, the second writes the truth value of
        on, which restores on when it is a boolean. */
    lemma ToggleTwice(lightID: string, on: Json, first: Network, second: Network)
      requires first(Get(LightURL(lightID), Some(GET_TIMEOUT))) == LightReporting("on", on)
      requires second(Get(LightURL(lightID), Some(GET_TIMEOUT))) == LightReporting("on", JBool(!Truthy(on)))
      ensures Toggle(lightID, first) == Send(first, Put(LightURL(lightID, true), Payload("on", JBool(!Truthy(on)))))
      ensures Toggle(lightID, second) == Send(second, Put(LightURL(lightID, true), Payload("on", JBool(Truthy(on)))))
      ensures on.JBool? ==> Toggle(lightID, second) == Send(second, Put(LightURL(lightID, true), Payload("on", on)))
    {
      assert ReadState(LightReporting("on", on), "on") == Some(on);
      assert ReadState(LightReporting("on", JBool(!Truthy(on))), "on") == Some(JBool(!Truthy(on)));
    }

    /** turnOff: writes the constant {'on': False}. */
    function TurnOff(lightID: string, net: Network): (r: PyResult<Json>)
      reads this
      ensures r == Send(net, Put("http://" + baseURL + "/lights/" + lightID + "/state", Payload("on", JBool(false))))
    {
      PutLight(lightID, Payload("on", JBool(false)), net)
    }

    /** turnOn: writes the constant {'on': True}. */
    function TurnOn(lightID: string, net: Network): (r: PyResult<Json>)
      reads this
      ensures r == Send(net, Put("http://" + baseURL + "/lights/" + lightID + "/state", Payload("on", JBool(true))))
    {
      PutLight(lightID, Payload("on", JBool(true)), net)
    }

    /** getBrightness: state.bri of the light's description. */
    function GetBrightness(lightID: string, net: Network): (r: PyResult<Json>)
      reads this
      ensures r.Ok? <==> ReadState(net(Get(LightURL(lightID), Some(GET_TIMEOUT))), "bri").Some?
      ensures r.Ok? ==> r.value == ReadState(net(Get(LightURL(lightID), Some(GET_TIMEOUT))), "bri").value
      ensures var read := net(Get(LightURL(lightID), Some(GET_TIMEOUT)));
              && (read.Failed? ==> r == Raise(TransportFailure(read.kind)))
              && (read.Delivered? && !read.response.ok ==> r == Raise(KeyError))
    {
      var light :- GetLight(lightID, net);
      StateField(light, "bri")
    }

    /** setBrightness: writes {'bri': brightness}, the value unchecked. */
    function SetBrightness(lightID: string, brightness: Json, net: Network): (r: PyResult<Json>)
      reads this
      ensures r == Send(net, Put("http://" + baseURL + "/lights/" + lightID + "/state", Payload("bri", brightness)))
    {
      PutLight(lightID, Payload("bri", brightness), net)
    }

    /** getSaturation: state.sat of the light's description. */
    function GetSaturation(lightID: string, net: Network): (r: PyResult<Json>)
      reads this
      ensures r.Ok? <==> ReadState(net(Get(LightURL(lightID), Some(GET_TIMEOUT))), "sat").Some?
      ensures r.Ok? ==> r.value == ReadState(net(Get(LightURL(lightID), Some(GET_TIMEOUT))), "sat").value
      ensures var read := net(Get(LightURL(lightID), Some(GET_TIMEOUT)));
              && (read.Failed? ==> r == Raise(TransportFailure(read.kind)))
              && (read.Delivered? && !read.response.ok ==> r == Raise(KeyError))
    {
      var light :- GetLight(lightID, net);
      StateField(light, "sat")
    }

    /** setSaturation: writes {'sat': saturation}, the value unchecked. */
    function SetSaturation(lightID: string, saturation: Json, net: Network): (r: PyResult<Json>)
      reads this
      ensures r == Send(net, Put("http://" + baseURL + "/lights/" + lightID + "/state", Payload("sat", saturation)))
    {
      PutLight(lightID, Payload("sat", saturation), net)
    }

    /** getHue: state.hue of the light's description. */
    function GetHue(lightID: string, net: Network): (r: PyResult<Json>)
      reads this
      ensures r.Ok? <==> ReadState(net(Get(LightURL(lightID), Some(GET_TIMEOUT))), "hue").Some?
      ensures r.Ok? ==> r.value == ReadState(net(Get(LightURL(lightID), Some(GET_TIMEOUT))), "hue").value
      ensures var read := net(Get(LightURL(lightID), Some(GET_TIMEOUT)));
              && (read.Failed? ==> r == Raise(TransportFailure(read.kind)))
              && (read.Delivered? && !read.response.ok ==> r == Raise(KeyError))
    {
      var light :- GetLight(lightID, net);
      StateField(light, "hue")
    }

    /** setHue: writes {'hue': hue}, the value unchecked. */
    function SetHue(lightID: string, hue: Json, net: Network): (r: PyResult<Json>)
      reads this
      ensures r == Send(net, Put("http://" + baseURL + "/lights/" + lightID + "/state", Payload("hue", hue)))
    {
      PutLight(lightID, Payload("hue", hue), net)
    }
  }
}
