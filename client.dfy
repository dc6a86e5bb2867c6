/**
 * `Client` of client.py: credentials fixed at construction, the cached session
 * cookie as its one mutable field, and the request methods, each of which runs
 * `_login` (through `_url`) before issuing its one resource call.
 *
 * The network is replaced by parameters: `now` is the value of `time()` read by
 * `_login`, `login` is the answer the login exchange would get, and `reply` the
 * answer to the resource call. The request the client would send is returned.
 */
module SnmpClient {
  import opened Wrappers
  import opened DevicePaths
  import opened Responses
  import opened Session

  /** One resource request as issued: verb, full URL, cookies attached and JSON body (if any). */
  datatype Request = Request(verb: string, url: string, cookies: map<string, string>, json: Option<string>)

  /** The effect of one request method: the new cookie cache, the request sent (if any) and the outcome. */
  datatype Call = Call(cookie: Option<Cookie>, request: Option<Request>, outcome: Outcome)

  /**
   * The dispatch every request method follows: `_login`, then, only if it did
   * not raise, one request carrying the session cookie, classified by
   * `_raise_for` under the verb label and the relative path.
   */
  function Dispatched(baseUrl: string, cookie: Option<Cookie>, verb: string, path: string, json: Option<string>,
                      now: int, login: LoginReply, reply: Reply): (c: Call)
    ensures c.cookie == LoginStep(cookie, now, login).cookie
    ensures c.request.Some? <==> LoginStep(cookie, now, login).failure.None?
    ensures c.request.None? ==> c.outcome == Raised(LoginStep(cookie, now, login).failure.value)
    ensures c.request.Some? ==>
              && c.cookie.Some?
              && c.request.value == Request(verb, baseUrl + path, map[CookieKey := c.cookie.value.value], json)
              && c.outcome == RaiseFor(reply, verb, path)
  {
    var e := LoginStep(cookie, now, login);
    match e.failure
    case Some(err) => Call(e.cookie, None, Raised(err))
    case None =>
      Call(e.cookie, Some(Request(verb, baseUrl + path, map[CookieKey := e.cookie.value.value], json)),
           RaiseFor(reply, verb, path))
  }

  /**
   * Whatever the resource reply, a request is sent only with the session
   * cookie, and a failed resource call leaves the cache as `_login` left it;
   * a non-200 reply yields the error naming verb, relative path and body.
   */
  lemma ResourceFailureKeepsSession(baseUrl: string, cookie: Option<Cookie>, verb: string, path: string,
                                    json: Option<string>, now: int, login: LoginReply, reply: Reply)
    requires LoginStep(cookie, now, login).failure.None?
    requires reply.status != 200
    ensures var c := Dispatched(baseUrl, cookie, verb, path, json, now, login, reply);
            && c.cookie == LoginStep(cookie, now, login).cookie
            && c.request.Some? && c.request.value.cookies[CookieKey] == c.cookie.value.value
            && c.outcome == Raised(RequestFailed(verb, path, reply.text))
  {
  }

  /** A new client's first request logs in and carries the cookie harvested from the login reply. */
  lemma FirstRequestCarriesHarvestedCookie(baseUrl: string, verb: string, path: string, json: Option<string>,
                                           now: int, login: LoginReply, reply: Reply)
    requires login.status == 200 && CookieKey in login.cookies
    ensures var c := Dispatched(baseUrl, None, verb, path, json, now, login, reply);
            && c.cookie == Some(Cookie(login.cookies[CookieKey], login.clock + Lifetime))
            && c.request.Some? && c.request.value.cookies == map[CookieKey := login.cookies[CookieKey]]
  {
  }

  class Client {
    const baseUrl: string
    const user: string
    const pw: string
    var cookie: Option<Cookie>

    /** `Client(base_url, user, pw)`: no cookie yet, no network activity. */
    constructor (baseUrl: string, user: string, pw: string)
      ensures this.baseUrl == baseUrl && this.user == user && this.pw == pw
      ensures cookie == None
    {
      this.baseUrl := baseUrl;
      this.user := user;
      this.pw := pw;
      cookie := None;
    }

    /** `_login()`: returns whether the login exchange was made, and the error it raised, if any. */
    method Login(now: int, reply: LoginReply) returns (exchanged: bool, failure: Option<Error>)
      modifies this`cookie
      ensures LoginEffect(cookie, exchanged, failure) == LoginStep(old(cookie), now, reply)
    {
      if cookie.Some? && cookie.value.expiry < now {
        return false, None;
      }
      exchanged := true;
      if reply.status != 200 {
        failure := Some(LoginRejected(reply.text));
        return;
      }
      if CookieKey !in reply.cookies {
        failure := Some(NoSessionCookie(reply.text));
        return;
      }
      cookie := Some(Cookie(reply.cookies[CookieKey], reply.clock + Lifetime));
      failure := None;
    }

    /** `_url(path)`: logs in if needed, then gives the full URL; afterwards a cookie is cached. */
    method Url(path: string, now: int, login: LoginReply) returns (url: Result<string, Error>)
      modifies this`cookie
      ensures cookie == LoginStep(old(cookie), now, login).cookie
      ensures url == match LoginStep(old(cookie), now, login).failure
                     case Some(err) => Failure(err)
                     case None => Success(baseUrl + path)
      ensures url.Success? ==> cookie.Some?
    {
      var _, failure := Login(now, login);
      if failure.Some? {
        return Failure(failure.value);
      }
      url := Success(baseUrl + path);
    }

    /** The shared body of the request methods: `_url`, then one request with `{cookie_key: cookie[0]}`. */
    method Dispatch(verb: string, path: string, json: Option<string>, now: int, login: LoginReply, reply: Reply)
      returns (request: Option<Request>, outcome: Outcome)
      modifies this`cookie
      ensures Call(cookie, request, outcome) == Dispatched(baseUrl, old(cookie), verb, path, json, now, login, reply)
    {
      var url := Url(path, now, login);
      if url.Failure? {
        return None, Raised(url.error);
      }
      request := Some(Request(verb, url.value, map[CookieKey := cookie.value.value], json));
      outcome := RaiseFor(reply, verb, path);
    }

    /** `_get(path)`: a GET under the label "GET". */
    method Get(path: string, now: int, login: LoginReply, reply: Reply)
      returns (request: Option<Request>, outcome: Outcome)
      modifies this`cookie
      ensures Call(cookie, request, outcome) == Dispatched(baseUrl, old(cookie), "GET", path, None, now, login, reply)
    {
      request, outcome := Dispatch("GET", path, None, now, login, reply);
    }

    /** `reload_config()`. */
    method ReloadConfig(now: int, login: LoginReply, reply: Reply)
      returns (request: Option<Request>, outcome: Outcome)
      modifies this`cookie
      ensures Call(cookie, request, outcome)
              == Dispatched(baseUrl, old(cookie), "GET", "/api/rt/agent/reload", None, now, login, reply)
    {
      request, outcome := Get(ReloadPath, now, login, reply);
    }

    /** `get_devices_info()`. */
    method GetDevicesInfo(now: int, login: LoginReply, reply: Reply)
      returns (request: Option<Request>, outcome: Outcome)
      modifies this`cookie
      ensures Call(cookie, request, outcome)
              == Dispatched(baseUrl, old(cookie), "GET", "/api/rt/device/info", None, now, login, reply)
    {
      request, outcome := Get(DevicesInfoPath, now, login, reply);
    }

    /** `get_devices_config()`: the database collection. */
    method GetDevicesConfig(now: int, login: LoginReply, reply: Reply)
      returns (request: Option<Request>, outcome: Outcome)
      modifies this`cookie
      ensures Call(cookie, request, outcome)
              == Dispatched(baseUrl, old(cookie), "GET", "/api/cfg/snmpdevice", None, now, login, reply)
    {
      request, outcome := Get(DevCfgUrl(None, false), now, login, reply);
    }

    /** `get_device_config(id_, runtime)`. */
    method GetDeviceConfig(id: Option<string>, runtime: bool, now: int, login: LoginReply, reply: Reply)
      returns (request: Option<Request>, outcome: Outcome)
      modifies this`cookie
      ensures Call(cookie, request, outcome)
              == Dispatched(baseUrl, old(cookie), "GET", DevCfgUrl(id, runtime), None, now, login, reply)
    {
      request, outcome := Get(DevCfgUrl(id, runtime), now, login, reply);
    }

    /** `update_device_config(id_, config, runtime)`: the config is sent unchanged as the JSON body. */
    method UpdateDeviceConfig(id: Option<string>, config: string, runtime: bool,
                              now: int, login: LoginReply, reply: Reply)
      returns (request: Option<Request>, outcome: Outcome)
      modifies this`cookie
      ensures Call(cookie, request, outcome)
              == Dispatched(baseUrl, old(cookie), "PUT", DevCfgUrl(id, runtime), Some(config), now, login, reply)
    {
      var path := DevCfgUrl(id, runtime);
      request, outcome := Dispatch("PUT", path, Some(config), now, login, reply);
    }

    /** `create_device_config(config, runtime)`: always the collection path, whatever the config holds. */
    method CreateDeviceConfig(config: string, runtime: bool, now: int, login: LoginReply, reply: Reply)
      returns (request: Option<Request>, outcome: Outcome)
      modifies this`cookie
      ensures Call(cookie, request, outcome)
              == Dispatched(baseUrl, old(cookie), "POST", DevCfgUrl(None, runtime), Some(config), now, login, reply)
    {
      var path := DevCfgUrl(None, runtime);
      request, outcome := Dispatch("POST", path, Some(config), now, login, reply);
    }

    /** `delete_device_config(id_, runtime)`. */
    method DeleteDeviceConfig(id: Option<string>, runtime: bool, now: int, login: LoginReply, reply: Reply)
      returns (request: Option<Request>, outcome: Outcome)
      modifies this`cookie
      ensures Call(cookie, request, outcome)
              == Dispatched(baseUrl, old(cookie), "DELETE", DevCfgUrl(id, runtime), None, now, login, reply)
    {
      var path := DevCfgUrl(id, runtime);
      request, outcome := Dispatch("DELETE", path, None, now, login, reply);
    }
  }

  /**
   * The class-level form of `Session.LoginAgainWithinLifetime`: a new client's
   * first request logs in and carries the harvested cookie, and a second
   * `_login` made while that cookie is still fresh performs the exchange again.
   */
  method RepeatedUse(baseUrl: string, user: string, pw: string, t0: int, login0: LoginReply, reply0: Reply,
                     t1: int, login1: LoginReply)
    returns (first: Option<Request>, secondExchanged: bool)
    requires login0.status == 200 && CookieKey in login0.cookies
    requires t1 <= login0.clock + Lifetime
    ensures first.Some? && first.value.url == baseUrl + "/api/rt/device/info"
    ensures first.value.cookies == map[CookieKey := login0.cookies[CookieKey]]
    ensures secondExchanged
  {
    var client := new Client(baseUrl, user, pw);
    var outcome0, failure1;
    first, outcome0 := client.GetDevicesInfo(t0, login0, reply0);
    secondExchanged, failure1 := client.Login(t1, login1);
  }
}
