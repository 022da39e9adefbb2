# PyPHue in Dafny

PyPHue is a Python client for a Philips Hue lighting bridge. Building a
`PyPHue` object runs a bootstrap sequence:

1. It finds the bridge's address, either by validating the one supplied or by
   asking the cloud discovery endpoint `https://www.meethue.com/api/nupnp`.
2. It obtains a user, either by validating the one supplied or by running the
   press-button handshake, which asks the bridge to create one.
3. It builds `baseURL` from the address and the user.
4. It lists the light IDs.

After that, its accessors read and write the `on`, `bri`, `sat` and `hue`
fields of one light's state. Every HTTP answer, except the one pyphue.py's
`validateIP` reads, goes through `responseData`, which builds a dict:
`status_code` and `ok` always, plus `json` only when the answer is ok.

The repository holds two versions of the client, and this model covers both:

- `pyphue/pyphue.py`, the installable package. It builds URLs with
  `url(*args)`, its `baseURL` has no scheme, and its write URL ends in
  `/state`.
- `pyphue.py`, the top-level module. It builds URLs with `str.format`, its
  `baseURL` starts with `http://`, its read and write URLs end in `/`, and it
  keeps a dict of friendly light names.

## Modules

| module | file | contents |
|---|---|---|
| `Errors` | errors.dfy | `Option`; the transport failures; the exceptions (`IPError`, `UserError`, `BridgeError`, the transport's own, and the Python built-ins `KeyError`, `IndexError`, `TypeError`, `AttributeError`); `PyResult`, a value or a raised exception |
| `PyJson` | pyjson.dfy | decoded JSON values; the Python built-ins the client applies to them: `v[k]`, the truth test, `dict.get`, `dict.keys`, `str()` and `str.join`; `Split`, an independent reading of `str.join` |
| `Http` | http.dfy | requests, responses and outcomes; the network as a function from request to outcome; `responseData` and the `get`/`put`/`post` helpers |
| `Setup` | setup.dfy | the bootstrap steps both versions share, each with a *reference reading*: a structural definition of the answers that step accepts, stated independently of the code that performs it |
| `Lights` | lights.dfy | reading one state field of a light, and the single-field payloads the setters send |
| `PackageClient` | package_client.dfy | `pyphue/pyphue.py`: `url`, `lightURL`, the bootstrap and the class `PyPHue` |
| `RootClient` | root_client.dfy | `pyphue.py`: its bootstrap, the class `PyPHue` with `friendlyLights`, and its `validateIP` as written (see Findings) |

### How the Python semantics are modelled

- **Network.** The network is a parameter `net: Request -> Outcome`. A request
  records its verb, its URL, its payload, and the timeout when one is set. An
  outcome is either a delivered response (status code, ok flag, decoded body)
  or a transport failure.
- **Exceptions.** An exception the code does not catch leaves the model as the
  exception it is. In `validateUser`, `mapLights` and the light getters, a
  `KeyError` on an answer that is not ok stays a `KeyError`. `createUser`
  catches that `KeyError` and raises `BridgeError`, and `getBridgeIP` raises
  `IPError`.
- **Constructor.** `constructor()` gives the class-level defaults. The method
  `Init` is `__init__`; it calls `Establish` (the assignments of `ip`, `user`
  and `baseURL`) and `MapLights`. `Init` and `MapLights` are proved against the
  functions `Bootstrap` and `Listing`; the lemmas `BootstrapSession` and
  `BootstrapFailures` state what those functions give.
- **Decoded bodies.** A `JObj` may hold a key twice, which no body decoded by
  `json.loads` does. The predicate `PyJson.Decoded` states that every dict,
  at every depth, holds each key once. Contracts that promise light IDs
  without repeats assume it.

### Exceptions the code lets through

Only some failures become `IPError`, `UserError` or `BridgeError`. The others
leave as Python raises them:

- `validateUser`, on an answer that is not ok, raises `KeyError` rather than
  `UserError`, because the envelope has no `json` entry.
- `createUser` catches only `KeyError`. A transport failure, an `IndexError`
  on an empty list and a `TypeError` all pass through.
- `mapLights` raises `KeyError` or `AttributeError`.
- `validateIP` lets every transport failure other than a connection error, a
  missing schema or a connect timeout pass through.
- `mapLights` stores the dict's keys as a list. The model keeps them in the
  order of the document (see "Left out" on order).

## Model

| member | source | states |
|---|---|---|
| `PyJson.LookupFindsKeys` | pyphue/pyphue.py:203 | a dict lookup succeeds exactly for the keys `dict.keys()` lists |
| `PyJson.LookupAt` | pyphue/pyphue.py:206-210 | in a dict with distinct keys, looking up the i-th key gives the i-th value |
| `PyJson.DictGet` | pyphue/pyphue.py:160 | `dict.get` gives None for a key `keys()` does not list, and, in a dict, the value stored with a listed key |
| `PyJson.Subscript` | pyphue/pyphue.py:160 | `v[k]`: a dict lookup gives the stored value and raises `KeyError` exactly on a missing key. A list index below the length gives that item, and a string index gives that one-character string; a larger index raises `IndexError`. Anything else raises `TypeError` |
| `PyJson.SplitJoin` | pyphue/pyphue.py:186 | splitting `sep.join(parts)` at `sep` gives the parts back, when no part contains `sep` |
| `PyJson.NatStr` | pyphue/pyphue.py:47 | `str()` of a number is decimal digits only, with no leading zero, and reads back as the number (`DecimalValue`) |
| `Http.EnvelopeOf` | pyphue/pyphue.py:206-210 | the envelope always holds `status_code` and `ok` with the response's values, and holds `json` (the body) iff ok; same as pyphue.py:111-115 |
| `Http.ResponseData` | pyphue/pyphue.py:206-210 | the dict built in place, with `json` inserted only when ok, equals `EnvelopeOf` |
| `Http.Send` | pyphue/pyphue.py:116-129 | `get`/`put`/`post` raise exactly the transport's failure, and otherwise return the envelope of the response; same as pyphue.py:99-109 |
| `Lights.StateField` | pyphue/pyphue.py:82-84 | `['json']['state'][field]` succeeds exactly when the body's state dict holds the field, and then gives that value |
| `Lights.StateFieldOfEnvelope` | pyphue/pyphue.py:82-104 | on a delivered answer, a state field is read iff the answer is ok and reports it; an answer that is not ok raises `KeyError` |
| `Lights.Payload` | pyphue/pyphue.py:86-109 | every write sends a dict of exactly one field, holding the given value |
| `Setup.GetBridgeIP` | pyphue/pyphue.py:137-141 | the result is `json[0]['internalipaddress']` of an ok discovery answer exactly when that entry exists; every failure, the transport's included, is `IPError`; same as pyphue.py:122-126 |
| `Setup.ValidateIP` | pyphue/pyphue.py:144-154 | the address comes back unchanged iff the probe of `http://{ip}/api/` answers ok; a non-ok answer, a connection error, a missing schema or a connect timeout is `IPError`; any other transport failure passes through |
| `Setup.ResolveIP` | pyphue/pyphue.py:45 | a supplied, non-empty address is validated; otherwise the address is discovered, and every failure of discovery is `IPError` |
| `Setup.CheckUser` | pyphue/pyphue.py:157-163 | the user comes back unchanged iff the body is a dict whose `config` entry exists and is truthy; any other body is `UserError`; a missing `json` raises its `KeyError` |
| `Setup.CheckUserOnEnvelope` | pyphue/pyphue.py:157-163 | on a delivered answer: accepted iff ok and approving; ok but not approving is `UserError`; not ok is `KeyError`; same as pyphue.py:138-144 |
| `Setup.DeviceType` | pyphue/pyphue.py:172 | the handshake payload has the single key `devicetype`, holding AppName `#` DeviceName |
| `Setup.UsernameOf` | pyphue/pyphue.py:174-177 | the result is `json[0]['success']['username']` exactly when the body has it. It is `BridgeError` exactly when a key is missing on the path (`KeyMissingOnPath`), a missing `json` included, so `KeyError` never leaves. It is `IndexError` exactly on an empty list or string (`IndexMissingOnPath`). Every other failure is `TypeError` |
| `Setup.UsernameOfEnvelope` | pyphue/pyphue.py:166-177 | on a delivered answer: a username is returned iff the bridge granted one. An ok answer is `BridgeError` iff a key is missing on the path, the refusal `[{"error": …}]` included. A non-ok answer is `BridgeError`. `IndexError` happens iff the answer is ok with an empty list or an empty string as its body. Same as pyphue.py:146-157 |
| `Setup.LightIDsOf` | pyphue/pyphue.py:201-203 | the light IDs are exactly the keys of the `json` dict, and an ID is listed iff the dict holds it. A decoded dict lists no ID twice. A missing `json` raises its `KeyError`, and a body that is not a dict is `AttributeError` |
| `PackageClient.Url` | pyphue/pyphue.py:185-186 | `url(...)` always starts with `http://`, and `url(a)` is `http://a` |
| `PackageClient.UrlOfTwoParts` | pyphue/pyphue.py:185-186 | `url(a, b)` is `http://a/b` |
| `PackageClient.UrlOfParts` | pyphue/pyphue.py:185-186 | `url(a, b)` is `http://a/b` and `url(a, b, c)` is `http://a/b/c` |
| `PackageClient.UrlSegments` | pyphue/pyphue.py:185-186 | the path of `url(args)` splits at `/` into exactly `args`, when no argument holds a `/` |
| `PackageClient.UserRequest` | pyphue/pyphue.py:158 | `validateUser` GETs `http://{ip}/api/{user}` with the 10-second timeout |
| `PackageClient.ValidateUser` | pyphue/pyphue.py:157-163 | the user comes back unchanged iff the address is a string and the bridge authorizes the user; a non-string address is `TypeError`; an ok answer without a truthy `config` is `UserError`; a non-ok answer is `KeyError`; a transport failure passes |
| `PackageClient.CreateUserRequest` | pyphue/pyphue.py:172 | `createUser` POSTs the devicetype payload to `http://{ip}/api` |
| `PackageClient.CreateUser` | pyphue/pyphue.py:166-177 | the result is the username the bridge grants exactly when it grants one. A non-ok answer is `BridgeError`. An ok answer is `BridgeError` iff a key is missing on the username path, and `IndexError` iff its body is an empty list or string. A non-string address is `TypeError`. `KeyError` never leaves |
| `PackageClient.ResolveUser` | pyphue/pyphue.py:46 | a supplied, non-empty user is kept iff `validateUser` accepts it, and a refusal raises `validateUser`'s exception; otherwise a user is created |
| `PackageClient.Listing` | pyphue/pyphue.py:201-203 | the stored IDs are exactly the keys of the dict an ok answer to `http://{baseURL}/lights/` lists, with no ID twice in a decoded dict; a non-ok answer is `KeyError` |
| `PackageClient.BootstrapSession` | pyphue/pyphue.py:40-49 | after a bootstrap that succeeds: a supplied ip was probed and answered ok, otherwise ip is the discovered address. A supplied user was authorized by the bridge at that ip, otherwise user is the one the bridge granted. `baseURL` is ip `/api/` user. The light IDs are exactly the listed keys, with no repeats in a decoded dict |
| `PackageClient.BootstrapFailures` | pyphue/pyphue.py:40-49 | failed discovery, a non-ok probe, or a caught connection error, missing schema or connect timeout on the probe is `IPError`. Once an address is resolved, supplied or discovered: a non-string address is `TypeError`, a refused user is `UserError`, and a handshake answered not ok or missing a key is `BridgeError`. A non-ok lights answer is `KeyError` |
| `PackageClient.PyPHue.constructor` | pyphue/pyphue.py:9-18 | a fresh object holds the class-level defaults |
| `PackageClient.PyPHue.Init` | pyphue/pyphue.py:40-49 | `__init__` records the application identity, and succeeds iff the bootstrap does, leaving its session in the fields; otherwise it raises the bootstrap's exception |
| `PackageClient.PyPHue.Establish` | pyphue/pyphue.py:45-47 | assigns `ip`, then `user` (under the recorded application identity), then `baseURL` = ip `/api/` user; succeeds iff the address and user steps do, and otherwise raises their exception |
| `PackageClient.PyPHue.MapLights` | pyphue/pyphue.py:201-203 | `lightIDs` becomes the listing's keys, built key by key; on an exception it keeps its old value |
| `PackageClient.PyPHue.LightURL` | pyphue/pyphue.py:189-190 | `lightURL(id, s)` is `http://{baseURL}/lights/{id}`, with `/state` appended iff `s` |
| `PackageClient.PyPHue.PutLight` | pyphue/pyphue.py:193-194 | `putLight` always PUTs to the `/state` form of the light URL |
| `PackageClient.PyPHue.GetLight` | pyphue/pyphue.py:197-198 | `getLight` GETs the light URL without `/state` |
| `PackageClient.PyPHue.Toggle` | pyphue/pyphue.py:57-60 | when the light reports `on`, toggle PUTs `{'on': not on}`; otherwise it raises, writing nothing: a non-ok read is `KeyError`, and a transport failure passes |
| `PackageClient.PyPHue.ToggleTwice` | pyphue/pyphue.py:57-60 | when the second read reports what the first toggle wrote, the first toggle writes `not on` and the second writes the truth value of `on`, which is `on` itself when it is a boolean |
| `PackageClient.PyPHue.TurnOff` | pyphue/pyphue.py:63-65 | PUTs the constant `{'on': False}` to the state URL |
| `PackageClient.PyPHue.TurnOn` | pyphue/pyphue.py:68-70 | PUTs the constant `{'on': True}` to the state URL |
| `PackageClient.PyPHue.GetBrightness` | pyphue/pyphue.py:82-84 | gives `bri` exactly when the light reports it; a failed read raises its transport failure, and a non-ok answer raises `KeyError` |
| `PackageClient.PyPHue.SetBrightness` | pyphue/pyphue.py:87-89 | PUTs `{'bri': brightness}` to the state URL |
| `PackageClient.PyPHue.GetSaturation` | pyphue/pyphue.py:92-94 | gives `sat` exactly when the light reports it; a failed read raises its transport failure, and a non-ok answer raises `KeyError` |
| `PackageClient.PyPHue.SetSaturation` | pyphue/pyphue.py:97-99 | PUTs `{'sat': saturation}` to the state URL |
| `PackageClient.PyPHue.GetHue` | pyphue/pyphue.py:102-104 | gives `hue` exactly when the light reports it; a failed read raises its transport failure, and a non-ok answer raises `KeyError` |
| `PackageClient.PyPHue.SetHue` | pyphue/pyphue.py:107-109 | PUTs `{'hue': hue}` to the state URL |
| `RootClient.ValidateIPAsWritten` | pyphue.py:128-136 | `validateIP` as written never returns an address: it raises `IPError`, `TypeError` or a transport failure |
| `RootClient.ValidateIPAsWrittenRefusedByRequests` | pyphue.py:128-136 | with a bridge at the supplied address, the corrected validation accepts it, while the written probe of the hostless `http:///api/` is refused by the HTTP library, so `validateIP` raises that refusal |
| `RootClient.ValidateIPAsWrittenOnHostless` | pyphue.py:128-136 | on any network that refuses the hostless URL, the written `validateIP` raises that refusal for every address, never the address and never `IPError` |
| `RootClient.ValidateUser` | pyphue.py:138-144 | the user comes back unchanged iff the bridge authorizes the GET of `http://{ip}/api/{user}`; an ok answer without a truthy `config` is `UserError`; a non-ok answer is `KeyError`; a transport failure passes |
| `RootClient.CreateUser` | pyphue.py:146-157 | the result is the username granted in answer to the POST to `http://{ip}/api/` exactly when one is granted. A non-ok answer is `BridgeError`. An ok answer is `BridgeError` iff a key is missing on the username path, and `IndexError` iff its body is an empty list or string. `KeyError` never leaves |
| `RootClient.ResolveUser` | pyphue.py:28 | a supplied, non-empty user is kept iff `validateUser` accepts it, and a refusal raises `validateUser`'s exception; otherwise a user is created |
| `RootClient.Listing` | pyphue.py:33-35 | an ID is stored iff the dict an ok answer to `{baseURL}/lights/` holds it, with no ID twice in a decoded dict; a non-ok answer is `KeyError` |
| `RootClient.BootstrapSession` | pyphue.py:22-31 | after a bootstrap that succeeds, a supplied ip answered the probe ok and a supplied user was authorized at that ip; otherwise ip is discovered and user granted. `baseURL` is `http://` ip `/api/` user. The light IDs are exactly the listed keys, with no repeats in a decoded dict |
| `RootClient.BootstrapFailures` | pyphue.py:22-31 | failed discovery, a non-ok probe, or a caught failure on the probe is `IPError`. Once an address is resolved, supplied or discovered: a refused user is `UserError`, a handshake answered not ok or missing a key is `BridgeError`, and a non-ok lights answer is `KeyError` |
| `RootClient.PyPHue.constructor` | pyphue.py:8-20 | a fresh object holds the class-level defaults, with no friendly names |
| `RootClient.PyPHue.Init` | pyphue.py:22-31 | `__init__` succeeds iff the bootstrap does, leaving its session in the fields; it does not touch `friendlyLights` |
| `RootClient.PyPHue.Establish` | pyphue.py:27-29 | assigns `ip`, then `user` (under the recorded application identity), then `baseURL` = `http://` ip `/api/` user; succeeds iff the address and user steps do, and otherwise raises their exception |
| `RootClient.PyPHue.MapLights` | pyphue.py:33-35 | `lightIDs` becomes the listing's keys, built key by key; on an exception it keeps its old value |
| `RootClient.PyPHue.AssignLightName` | pyphue.py:37-38 | the name now maps to the light ID, overwriting an earlier assignment; no other name changes |
| `RootClient.PyPHue.StateURL` | pyphue.py:51 | the write URL is the read URL `{baseURL}/lights/{id}/` followed by `state/` |
| `RootClient.PyPHue.LightInfo` | pyphue.py:40-42 | `lightInfo` GETs `{baseURL}/lights/{id}/` |
| `RootClient.PyPHue.Toggle` | pyphue.py:49-52 | when the light reports `on`, toggle PUTs `{'on': not on}` to the write URL; otherwise it raises, writing nothing |
| `RootClient.PyPHue.ToggleTwice` | pyphue.py:49-52 | when the second read reports what the first toggle wrote, the first toggle writes `not on` and the second writes the truth value of `on`, which is `on` itself when it is a boolean |
| `RootClient.PyPHue.TurnOff` | pyphue.py:54-56 | PUTs the constant `{'on': False}` to the write URL |
| `RootClient.PyPHue.TurnOn` | pyphue.py:58-60 | PUTs the constant `{'on': True}` to the write URL |
| `RootClient.PyPHue.GetBrightness` | pyphue.py:67-69 | gives `bri` exactly when the light reports it; a failed read raises its transport failure, and a non-ok answer raises `KeyError` |
| `RootClient.PyPHue.SetBrightness` | pyphue.py:72-74 | PUTs `{'bri': brightness}` to the write URL |
| `RootClient.PyPHue.GetSaturation` | pyphue.py:76-78 | gives `sat` exactly when the light reports it; a failed read raises its transport failure, and a non-ok answer raises `KeyError` |
| `RootClient.PyPHue.SetSaturation` | pyphue.py:81-83 | PUTs `{'sat': saturation}` to the write URL |
| `RootClient.PyPHue.GetHue` | pyphue.py:85-87 | gives `hue` exactly when the light reports it; a failed read raises its transport failure, and a non-ok answer raises `KeyError` |
| `RootClient.PyPHue.SetHue` | pyphue.py:90-92 | PUTs `{'hue': hue}` to the write URL |

## Left out

- PackageClient.PyPHue.Establish: says nothing about the fields after an
  exception. `__init__` then raises, so the partly assigned object never
  reaches a caller.

- RootClient.PyPHue.Establish: says nothing about the fields after an
  exception, for the same reason.

- Transport: `requests` is the parameter `net`. Connection handling, TLS and
  encoding of the payload by `json.dumps` are not modelled. The 10-second GET
  timeout is recorded in the request and nothing more.
- Bridge state: `net` gives one fixed answer per request, so the effect of a
  PUT on later reads is not modelled. `ToggleTwice` takes the two reads as two
  networks, the second reporting what the first toggle wrote.
- RootClient.Listing: pyphue.py is Python 2 code, and a Python 2 dict does not
  keep the document's order. The model stores the IDs in document order; the
  order pyphue.py produces is not captured. Only the set of IDs, and that no ID
  repeats, holds for pyphue.py.
- RootClient.PyPHue.MapLights: stores the IDs in document order, which
  pyphue.py under Python 2 does not. The order is not captured, as for
  `RootClient.Listing`.
- PackageClient.Listing: the order of the IDs is the document's only on Python
  3.7 and later. pyphue/pyphue.py also runs on Python 2, where the order is not
  captured.
- RootClient.Bootstrap: uses the corrected address validation,
  `Setup.ValidateIP`. With a supplied address, `RootClient.Bootstrap` and
  `RootClient.PyPHue.Init` therefore describe a constructor pyphue.py never
  completes: as written, it raises on every supplied address (see Findings).
- Http.Response: the ok flag is a field of its own. The HTTP library derives
  it from the status code (below 400), and the model does not tie the two.
- The `ip` and `user` arguments of the constructor are strings or absent.
  Python accepts any value there.
- JSON decoding: `response.json()` is assumed to succeed. A body that does
  not decode is not modelled.
- Numbers are integers. JSON floats are not modelled.
- PyJson.Repr: shows strings between quotes without escaping, and shows
  dicts and lists as Python does only for plain values. It matters only when
  an address or user that is not a string is formatted into a URL.
- Light IDs, brightness, saturation and hue are passed through unchecked, as
  in the code. Light IDs are strings. The ranges 0-254 and 0-65535 appear
  only in comments and are not checked.
- The wizard path of `createUser` (`print`, `input`/`raw_input`, the
  `PYTHON_VERSION` switch) is console I/O. The `wizard` flag is stored and
  has no other effect.
- `setup()` in pyphue/pyphue.py is a forwarding wrapper around the
  constructor.
- Class-level sharing: `lightIDs` and `friendlyLights` are class attributes
  in Python, and `assignLightName` mutates the shared dict in place, so all
  instances see it. The model gives each object its own fields.
- `friendlyLights` maps names to string IDs. Python allows any value.
- pyphueexceptions.py declares the three exceptions. They are the `IPError`,
  `UserError` and `BridgeError` cases of `Errors.Exc`.

## Findings

| source | as written | input that shows it | evidently intended | confidence | as-written member | corrected member |
|---|---|---|---|---|---|---|
| pyphue.py:128-136 | `validateIP` probes `self.ip`, which `__init__` has not assigned yet, so the probe goes to `http:///api/`, a URL without a host. The HTTP library refuses that URL with `InvalidURL` before sending, and no handler catches it. Past that, it calls `requests.get` directly and subscripts the raw response object with `['ok']`, a `TypeError`. It has no `return`, so even a passing probe would leave `self.ip` as `None`. | any supplied address, with a bridge answering at it: the constructor raises `InvalidURL` (the transport failure `OtherRequestException` in the model) | probe `http://{ip}/api/` through `get`, raise `IPError` on an answer that is not ok, and return `ip` (as pyphue/pyphue.py:144-154 does) | high; not executed | `RootClient.ValidateIPAsWritten`, `RootClient.ValidateIPAsWrittenRefusedByRequests` | `Setup.ValidateIP`, used by `RootClient.Bootstrap` |
