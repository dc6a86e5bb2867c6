# pysnmpcollector client core, in Dafny

A model of `pysnmpcollector/client.py`, the Python client for the SNMP collector's
REST API. The client logs in with a user name and password, caches the session
cookie it gets back together with an expiry time, and sends each
device-configuration request with that cookie attached. Three pieces hold all of
its logic, and the model covers each of them:

- `_devcfg_url` builds `/api/cfg/snmpdevice`, followed by `/{id}` when the id is
  truthy and `/runtime` when the runtime flag is set (module `DevicePaths`).
- `_raise_for` turns a reply into an error, parsed JSON or raw text (module
  `Responses`). It uses Python's `str.find`, which module `Strings` models.
- `_login` maintains the cookie cache. Module `Session` states it as a pure step.
  Class `SnmpClient.Client` performs the same step on its `cookie` field. The
  request methods call `_login` through `_url`, then send one request and
  classify the reply.

The network and the clock are parameters. `now` stands for the `time()` that
`_login` reads before deciding whether to log in. A `LoginReply` is the answer
the login POST would get, including `clock`, the second `time()` read after it.
A `Reply` is the answer to the resource call. Each request method returns the
`Request` it would send: verb, URL, cookies and JSON body.

The session check is modelled exactly as written. At client.py:52, `_login`
returns early when a cookie is cached and `self.cookie[1] < time()`. So a cached
cookie is reused only after its recorded expiry has passed. A cookie that is
still fresh triggers a new login on every call (`Session.FreshCookieForcesLogin`,
`Session.LoginAgainWithinLifetime`). Once the clock passes the expiry, the stale
cookie is kept for good and no login ever happens again
(`Session.ExpiredCookieKeptForever`). The evident intent is the reverse: line 60
records the expiry as `time()+3600`, which only makes sense as "valid until".
`Session.IntendedLoginStep` states that intended test beside the code's own (see
"## Findings"); the client class keeps the behaviour as written. client.py
harvests only the exact cookie name `snmpcollector-sess-my_instance_cookie`
(`Session.OtherInstanceCookieRefused`).

Other behaviour of the code as written that the model keeps:

- A Content-Type that starts with `json` gives text, not JSON, because
  `find('json') > 0` rejects index 0.
- A missing Content-Type header raises `KeyError`; the model calls this
  `NoContentType`.
- The id is not escaped in the path. So the id `runtime` and the runtime
  collection share one path (`DevicePaths.UnescapedIdCollides`). For every other
  id without `/`, the path determines the id and the flag
  (`DevicePaths.ParseDevCfgUrl`, `DevicePaths.DevCfgUrlOfParse`).

## Model

| member | source | states |
|---|---|---|
| `Strings.FindFrom` | pysnmpcollector/client.py:17 | the search from index `from` returns the first index at or after `from` where the needle occurs, or -1 when there is none |
| `Strings.Find` | pysnmpcollector/client.py:17 | `str.find`: -1 exactly when the needle does not occur; otherwise the lowest index where it occurs |
| `Strings.FindPositive` | pysnmpcollector/client.py:17 | `find(sub) > 0` holds iff `sub` occurs but is not a prefix |
| `DevicePaths.DevCfgUrl` | pysnmpcollector/client.py:23-30 | the path starts with `/api/cfg/snmpdevice`; `/{id}` follows it iff the id is truthy; the path ends in `/runtime` when the flag is set; the length accounts for exactly these segments, id segment first |
| `DevicePaths.ParseDevCfgUrl` | pysnmpcollector/client.py:30 | for ids that are plain segments, reading the path back gives the id (None when falsy) and the runtime flag: one of exactly four shapes, injectively |
| `DevicePaths.DevCfgUrlOfParse` | pysnmpcollector/client.py:30 | every string that reads back as a target is the path `_devcfg_url` builds for it |
| `DevicePaths.FalsyIdIsCollection` | pysnmpcollector/client.py:30 | `None` and `''` give the collection path, as `create_device_config` (client.py:126) relies on |
| `DevicePaths.FourShapes` | pysnmpcollector/client.py:30 | the four paths for no id / id `42`, with and without `runtime` |
| `DevicePaths.UnescapedIdCollides` | pysnmpcollector/client.py:30 | id `runtime` without the flag gives the same path as no id with the flag; an id with `/` can imitate the flag |
| `Responses.RaiseFor` | pysnmpcollector/client.py:7-20 | non-200 iff a request error carrying verb, relative path and body; on 200, JSON iff the Content-Type contains `json` but does not start with it; text otherwise; a missing Content-Type raises |
| `Responses.ContentTypeExamples` | pysnmpcollector/client.py:17-20 | `application/json` (with or without parameters) is parsed; `json` and `text/plain` come back as text |
| `Responses.NonOkReplyIsRequestError` | pysnmpcollector/client.py:15-16 | a non-200 reply yields the error and no data |
| `Session.Harvest` | pysnmpcollector/client.py:56-60 | a login reply yields a cookie iff status is 200 and the exact cookie name is present; then its value with expiry `clock + 3600`; otherwise the matching error |
| `Session.LoginStep` | pysnmpcollector/client.py:47-60 | login is skipped iff a cookie is cached with expiry `< now`; a failure leaves the cache untouched; success stores the harvested cookie; afterwards a cookie is cached unless it raised |
| `Session.FirstCallLogsIn` | pysnmpcollector/client.py:45-55 | a client with no cookie logs in on its first call |
| `Session.FreshCookieForcesLogin` | pysnmpcollector/client.py:52-55 | a cached cookie with expiry `>= now` never spares the login exchange |
| `Session.FailedLoginKeepsCookie` | pysnmpcollector/client.py:56-59 | a non-200 login or a reply without the exact cookie name raises the matching error and keeps the old cookie |
| `Session.OtherInstanceCookieRefused` | pysnmpcollector/client.py:58-59 | a reply carrying only `snmpcollector-sess-node3` raises; there is no prefix fallback |
| `Session.LoginAgainWithinLifetime` | pysnmpcollector/client.py:52-60 | after a successful login at clock `t`, any call up to `t + 3600` logs in again |
| `Session.ExpiredCookieKeptForever` | pysnmpcollector/client.py:52-53 | once every later call's clock is past a cookie's expiry, that cookie is kept and no login is made over any number of calls |
| `Session.IntendedLoginStep` | pysnmpcollector/client.py:52-60 | the evidently intended `_login`: the exchange is skipped iff a cookie is cached with `now < expiry`; skipping leaves a cookie that is still valid; failures and success as in the code |
| `Session.IntendedReuseWhileFresh` | pysnmpcollector/client.py:52-53 | under the intended test, no call made before the cached cookie's expiry logs in, over any number of calls |
| `Session.IntendedRenewsOnceAfterExpiry` | pysnmpcollector/client.py:52-60 | under the intended test, the first call at or after expiry logs in, and after a successful login at clock `t` no call before `t + 3600` logs in again: exactly one exchange |
| `Session.WrittenTestIsInverted` | pysnmpcollector/client.py:52 | for a cookie with expiry 3600, the code logs in again at time 10 and reuses the stale cookie at time 4000; the intended test does the opposite |
| `SnmpClient.RepeatedUse` | pysnmpcollector/client.py:47-91 | the class-level form of `Session.LoginAgainWithinLifetime`: a new client's first request carries the harvested cookie, and a second `_login` while that cookie is fresh logs in again |
| `SnmpClient.Dispatched` | pysnmpcollector/client.py:62-77 | a request is sent iff `_login` did not raise; it then carries `{cookie_key: cookie[0]}` of the cookie just ensured, the URL `base_url + path` and the body unchanged; the outcome is `_raise_for` under the verb label and relative path; the cache is what `_login` left |
| `SnmpClient.ResourceFailureKeepsSession` | pysnmpcollector/client.py:70-77 | a non-200 resource reply raises the error naming verb, relative path and body, and leaves the cookie cache as login left it |
| `SnmpClient.FirstRequestCarriesHarvestedCookie` | pysnmpcollector/client.py:58-77 | a new client's first request carries exactly the cookie harvested from the login reply |
| `SnmpClient.Client.constructor` | pysnmpcollector/client.py:35-45 | credentials stored, no cookie cached, no exchange made |
| `SnmpClient.Client.Login` | pysnmpcollector/client.py:47-60 | the new cookie, whether the exchange was made and the error raised are those of `LoginStep` on the old cookie |
| `SnmpClient.Client.Url` | pysnmpcollector/client.py:62-68 | logs in as `LoginStep` says, then yields `base_url + path` or the login error; on success a cookie is cached |
| `SnmpClient.Client.Dispatch` | pysnmpcollector/client.py:77-137 | the pattern repeated at lines 77, 117, 127 and 137: new cookie, request sent and outcome are those of `Dispatched` for the given verb, path and body |
| `SnmpClient.Client.Get` | pysnmpcollector/client.py:70-77 | `Dispatched` under the label `GET` with no body |
| `SnmpClient.Client.ReloadConfig` | pysnmpcollector/client.py:79-84 | a GET of `/api/rt/agent/reload` |
| `SnmpClient.Client.GetDevicesInfo` | pysnmpcollector/client.py:86-91 | a GET of `/api/rt/device/info` |
| `SnmpClient.Client.GetDevicesConfig` | pysnmpcollector/client.py:93-98 | a GET of the database collection `/api/cfg/snmpdevice` |
| `SnmpClient.Client.GetDeviceConfig` | pysnmpcollector/client.py:100-107 | a GET of `_devcfg_url(id_, runtime)` |
| `SnmpClient.Client.UpdateDeviceConfig` | pysnmpcollector/client.py:109-117 | a PUT of the config, unchanged, to `_devcfg_url(id_, runtime)` under the label `PUT` |
| `SnmpClient.Client.CreateDeviceConfig` | pysnmpcollector/client.py:119-127 | a POST of the config, unchanged, to the collection path under the label `POST` |
| `SnmpClient.Client.DeleteDeviceConfig` | pysnmpcollector/client.py:129-137 | a DELETE of `_devcfg_url(id_, runtime)` under the label `DELETE`, no body |

## Findings

| source | as written | input that shows it | evidently intended | confidence | as-written member | corrected member |
|---|---|---|---|---|---|---|
| pysnmpcollector/client.py:52 | `_login` skips the login when `self.cookie[1] < time()`, i.e. only once the cookie has expired | a cookie harvested at clock 0 has expiry 3600; a call at time 10 logs in again, a call at time 4000 reuses the stale cookie, and so does every later call | skip the login while `time() < self.cookie[1]`, since line 60 records the expiry as `time()+3600` | high; not executed | `Session.LoginStep` (with `Session.WrittenTestIsInverted`, `Session.ExpiredCookieKeptForever`) | `Session.IntendedLoginStep` (with `Session.IntendedReuseWhileFresh`, `Session.IntendedRenewsOnceAfterExpiry`) |

## Left out

- The HTTP calls (`requests.get/post/put/delete`) are network I/O. Their replies are parameters (`LoginReply`, `Reply`), and the request is returned as a value.
- `time()` is the wall clock and returns a float. Both reads are integer parameters: `now` for the check at client.py:52 and `LoginReply.clock` for the expiry at client.py:60.
- RaiseFor: `r.json()` is a foreign parser, so the JSON outcome carries the body text it would parse. A body that fails to parse, which raises in Python, is not modelled.
- Header lookup in `requests` ignores case, and its cookie jar can raise when one name is set for several domains. Replies carry the Content-Type as an optional string and the cookies as a map from name to value.
- `_get`'s `params` argument is always `None` at its call sites, so query parameters are not modelled.
- `self.user = user,` stores a one-element tuple. This only changes the form body sent to the login endpoint, which is not modelled; the user name is stored as given.
- Ids are strings, as the docstrings declare. A non-string id would be formatted with `str()`, and that formatting is not modelled.
- Exception messages: only the verb, path and body they carry are kept, not their wording.
- setup.py is packaging metadata with no logic.
