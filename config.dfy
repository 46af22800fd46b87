/** The client configuration manager (src/config-manager.js): the injected
    `window.__DASHBOARD_CONFIG__` object wins, otherwise `/api/config` is
    fetched; reads before a successful `initialize` throw, and a key whose
    value is `null` or `undefined` reads as the caller's default. The injected
    object and the backend reply are parameters. */
module Config {
  import opened Common

  /** A configuration value as JSON gives it; `Other` is an object or an array. */
  datatype Value = Undefined | Null | Text(text: string) | Number(number: int) | Flag(flag: bool) | Other

  predicate Nullish(v: Value) {
    v.Undefined? || v.Null?
  }

  /** A configuration object; `None` is `null`. */
  type ConfigObject = Option<map<string, Value>>

  /** What `fetch('/api/config')` and `response.json()` gave: a throw, or a
      response whose body parsed to an object or `null`, or failed to parse. */
  datatype BackendReply =
    | BackendThrew(message: string)
    | BackendAnswered(ok: bool, status: nat, statusText: string, body: Result<ConfigObject, string>)

  const NotInitialized: string := "Config not initialized. Call initialize() first."
  const Forbidden: string := "Config endpoint not available (production mode without injection)"

  /** The two troubleshooting lines appended to every load failure. */
  const LoadHints: string :=
    "\n\n" +
    "Local dev: Did you copy .env.example to .env and fill in credentials?\n" +
    "Production: Did the K3s init container run successfully?"

  /** The message `initialize` rethrows, wrapping the message of the error it caught. */
  function FailureMessage(details: string): (m: string)
    ensures IsPrefix("Configuration failed to load. Details: " + details, m)
  {
    "Configuration failed to load. Details: " + details + LoadHints
  }

  /** The error a backend reply raises inside `initialize`, if any. */
  function BackendError(reply: BackendReply): (e: Option<string>)
    ensures reply.BackendThrew? ==> e == Some(reply.message)
    ensures reply.BackendAnswered? && !reply.ok && reply.status == 403 ==> e == Some(Forbidden)
    ensures reply.BackendAnswered? && !reply.ok && reply.status != 403 ==>
      e == Some("HTTP " + NatToString(reply.status) + ": " + reply.statusText)
    ensures e.None? <==> reply.BackendAnswered? && reply.ok && reply.body.Ok?
  {
    match reply
    case BackendThrew(m) => Some(m)
    case BackendAnswered(ok, status, statusText, body) =>
      if !ok then (if status == 403 then Some(Forbidden) else Some("HTTP " + NatToString(status) + ": " + statusText))
      else if body.Err? then Some(body.error)
      else None
  }

  /** `config?.[key] ?? defaultValue`. */
  function Lookup(config: ConfigObject, key: string, default: Value): (v: Value)
    ensures v == default || (config.Some? && key in config.value && v == config.value[key])
    ensures v != default ==> !Nullish(v)
  {
    if config.Some? && key in config.value && !Nullish(config.value[key]) then config.value[key] else default
  }

  /** Only `null` and `undefined` fall back: `''`, `0` and `false` are returned as stored. */
  lemma LookupDefaultsOnlyNullish(config: ConfigObject, key: string, default: Value)
    ensures config.Some? && key in config.value && !Nullish(config.value[key]) ==>
      Lookup(config, key, default) == config.value[key]
    ensures config.None? || key !in config.value || Nullish(config.value[key]) ==>
      Lookup(config, key, default) == default
    ensures Lookup(Some(map[key := Text("")]), key, default) == Text("")
    ensures Lookup(Some(map[key := Number(0)]), key, default) == Number(0)
    ensures Lookup(Some(map[key := Flag(false)]), key, default) == Flag(false)
  {
  }

  class ConfigManager {
    var config: ConfigObject
    var isInitialized: bool

    constructor()
      ensures config.None? && !isInitialized
    {
      config := None;
      isInitialized := false;
    }

    /** `initialize()`: the injected object, when there is one, is taken without
        a request; otherwise the backend reply decides, and any failure throws
        the wrapped message and leaves the manager as it was. */
    method Initialize(injected: Option<map<string, Value>>, backend: BackendReply)
      returns (r: Result<ConfigObject, string>, requests: seq<string>)
      modifies this
      ensures injected.Some? ==> r == Ok(injected) && requests == [] && config == injected && isInitialized
      ensures injected.None? ==> requests == ["/api/config"]
      ensures injected.None? ==> match BackendError(backend)
        case Some(e) => r == Err(FailureMessage(e)) && config == old(config) && isInitialized == old(isInitialized)
        case None => r == Ok(backend.body.value) && config == backend.body.value && isInitialized
    {
      if injected.Some? {
        config := injected;
        isInitialized := true;
        return Ok(config), [];
      }
      requests := ["/api/config"];
      var loaded := LoadFromBackend(backend);
      if loaded.Err? {
        return Err(FailureMessage(loaded.error)), requests;
      }
      config := loaded.value;
      isInitialized := true;
      return Ok(config), requests;
    }

    /** The body of the `try` in `initialize()` after the fetch: the error it
        raises, or the parsed object. */
    method LoadFromBackend(backend: BackendReply) returns (r: Result<ConfigObject, string>)
      ensures BackendError(backend).Some? ==> r == Err(BackendError(backend).value)
      ensures BackendError(backend).None? ==> r == Ok(backend.body.value)
    {
      if backend.BackendThrew? {
        return Err(backend.message);
      }
      if !backend.ok {
        if backend.status == 403 {
          return Err(Forbidden);
        }
        return Err("HTTP " + NatToString(backend.status) + ": " + backend.statusText);
      }
      if backend.body.Err? {
        return Err(backend.body.error);
      }
      return Ok(backend.body.value);
    }

    /** `getConfig()`: the object, once initialised with a non-null one. */
    function GetConfig(): (r: Result<map<string, Value>, string>)
      reads this
      ensures r.Ok? <==> IsReady()
      ensures r.Ok? ==> config == Some(r.value)
      ensures r.Err? ==> r.error == NotInitialized
    {
      if !isInitialized || config.None? then Err(NotInitialized) else Ok(config.value)
    }

    /** `get(key, defaultValue)`: throws before initialisation, even when the request would fall back. */
    function Get(key: string, default: Value): (r: Result<Value, string>)
      reads this
      ensures r.Err? <==> !isInitialized
      ensures r.Err? ==> r.error == NotInitialized
      ensures r.Ok? ==> r.value == Lookup(config, key, default)
    {
      if !isInitialized then Err(NotInitialized) else Ok(Lookup(config, key, default))
    }

    /** `isReady()`. */
    predicate IsReady()
      reads this
    {
      isInitialized && config.Some?
    }
  }

  /** A backend body of JSON `null` initialises the manager without making it
      ready: `getConfig` still throws, while `get` answers every key with its default. */
  method NullBodyInitialises(key: string, default: Value) returns (ready: bool, read: Result<Value, string>)
    ensures !ready && read == Ok(default)
  {
    var manager := new ConfigManager();
    var reply := BackendAnswered(true, 200, "OK", Ok(None));
    assert BackendError(reply).None?;
    var _, _ := manager.Initialize(None, reply);
    ready := manager.IsReady();
    read := manager.Get(key, default);
  }
}
