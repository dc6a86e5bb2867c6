/**
 * The session cookie cache of `Client._login` (client.py:45, 47-60), as a pure
 * step from the cached cookie, the clock and the login reply to the new cache.
 * The class in module SnmpClient performs this step in place.
 */
module Session {
  import opened Wrappers
  import opened Responses

  /** The only cookie name the login reply is searched for (client.py:4). */
  const CookieKey: string := "snmpcollector-sess-my_instance_cookie"

  /** Seconds a harvested cookie is recorded as valid (client.py:60). */
  const Lifetime: int := 3600

  /** The cached `self.cookie` tuple: the cookie value and its recorded expiry time. */
  datatype Cookie = Cookie(value: string, expiry: int)

  /**
   * What `post(base_url + '/login', ...)` answers, with `clock`, the value of
   * `time()` read after the reply arrived (client.py:60).
   */
  datatype LoginReply = LoginReply(status: int, cookies: map<string, string>, text: string, clock: int)

  /** The cookie after `_login`, whether the login exchange was made, and the error raised if any. */
  datatype LoginEffect = LoginEffect(cookie: Option<Cookie>, exchanged: bool, failure: Option<Error>)

  /**
   * The test that lets `_login` return at once: a cookie is cached and its
   * expiry lies strictly before `now` (the comparison exactly as client.py:52 has it).
   */
  predicate SkipsLogin(cookie: Option<Cookie>, now: int) {
    cookie.Some? && cookie.value.expiry < now
  }

  /** The cookie a login reply yields, or the error `_login` raises for it (client.py:56-60). */
  function Harvest(reply: LoginReply): (r: Result<Cookie, Error>)
    ensures r.Success? <==> reply.status == 200 && CookieKey in reply.cookies
    ensures r.Success? ==> r.value == Cookie(reply.cookies[CookieKey], reply.clock + Lifetime)
    ensures reply.status != 200 ==> r == Failure(LoginRejected(reply.text))
    ensures reply.status == 200 && CookieKey !in reply.cookies ==> r == Failure(NoSessionCookie(reply.text))
  {
    if reply.status != 200 then Failure(LoginRejected(reply.text))
    else if CookieKey !in reply.cookies then Failure(NoSessionCookie(reply.text))
    else Success(Cookie(reply.cookies[CookieKey], reply.clock + Lifetime))
  }

  /** One call of `_login` at time `now`, with `reply` the answer the login exchange would get. */
  function LoginStep(cookie: Option<Cookie>, now: int, reply: LoginReply): (e: LoginEffect)
    ensures e.exchanged <==> !SkipsLogin(cookie, now)
    ensures e.failure.Some? ==> e.exchanged && e.cookie == cookie && Harvest(reply) == Failure(e.failure.value)
    ensures !e.exchanged ==> e.failure.None? && e.cookie == cookie
    ensures e.exchanged && e.failure.None? ==> Harvest(reply).Success? && e.cookie == Some(Harvest(reply).value)
    ensures e.failure.None? ==> e.cookie.Some?
  {
    if SkipsLogin(cookie, now) then LoginEffect(cookie, false, None)
    else match Harvest(reply)
      case Failure(err) => LoginEffect(cookie, true, Some(err))
      case Success(c) => LoginEffect(Some(c), true, None)
  }

  /** A client with no cookie yet always logs in on its first call. */
  lemma FirstCallLogsIn(now: int, reply: LoginReply)
    ensures LoginStep(None, now, reply).exchanged
  {
  }

  /**
   * A cached cookie whose expiry has not passed (expiry >= now) never spares the
   * login exchange: the cache is only ever reused after it has expired.
   */
  lemma FreshCookieForcesLogin(c: Cookie, now: int, reply: LoginReply)
    requires now <= c.expiry
    ensures LoginStep(Some(c), now, reply).exchanged
  {
  }

  /** A rejected login, or one whose reply lacks the exact cookie name, leaves the cache as it was. */
  lemma FailedLoginKeepsCookie(cookie: Option<Cookie>, now: int, reply: LoginReply)
    requires !SkipsLogin(cookie, now)
    requires reply.status != 200 || CookieKey !in reply.cookies
    ensures LoginStep(cookie, now, reply).cookie == cookie
    ensures LoginStep(cookie, now, reply).failure
            == Some(if reply.status != 200 then LoginRejected(reply.text) else NoSessionCookie(reply.text))
  {
  }

  /** Only the exact default name is harvested: another instance's cookie with the same prefix is refused. */
  lemma OtherInstanceCookieRefused(now: int, text: string, clock: int)
    ensures var reply := LoginReply(200, map["snmpcollector-sess-node3" := "xyz"], text, clock);
            LoginStep(None, now, reply) == LoginEffect(None, true, Some(NoSessionCookie(text)))
  {
    assert CookieKey != "snmpcollector-sess-node3";
  }

  /**
   * Right after a successful login at clock t, any call made up to t + 3600
   * logs in again instead of reusing the cookie it just harvested.
   */
  lemma LoginAgainWithinLifetime(cookie: Option<Cookie>, now: int, reply: LoginReply, later: int, next: LoginReply)
    requires LoginStep(cookie, now, reply).exchanged && LoginStep(cookie, now, reply).failure.None?
    requires later <= reply.clock + Lifetime
    ensures LoginStep(LoginStep(cookie, now, reply).cookie, later, next).exchanged
  {
  }

  /** The cookie after `_login` has been called at each time of `calls` in turn, each with its reply. */
  function Replay(cookie: Option<Cookie>, calls: seq<(int, LoginReply)>): Option<Cookie>
    decreases |calls|
  {
    if calls == [] then cookie
    else Replay(LoginStep(cookie, calls[0].0, calls[0].1).cookie, calls[1..])
  }

  /** How many login exchanges those calls make. */
  function Exchanges(cookie: Option<Cookie>, calls: seq<(int, LoginReply)>): nat
    decreases |calls|
  {
    if calls == [] then 0
    else
      var e := LoginStep(cookie, calls[0].0, calls[0].1);
      (if e.exchanged then 1 else 0) + Exchanges(e.cookie, calls[1..])
  }

  /**
   * Once the clock has passed a cached cookie's expiry, that cookie is kept for
   * every later call and no login is ever made again.
   */
  lemma {:induction false} ExpiredCookieKeptForever(c: Cookie, calls: seq<(int, LoginReply)>)
    requires forall i :: 0 <= i < |calls| ==> c.expiry < calls[i].0
    ensures Replay(Some(c), calls) == Some(c)
    ensures Exchanges(Some(c), calls) == 0
  {
    if calls != [] {
      assert c.expiry < calls[0].0;
      ExpiredCookieKeptForever(c, calls[1..]);
    }
  }

  /**
   * The evidently intended test at client.py:52: a cached cookie is reused
   * while its recorded expiry (`time()+3600` at client.py:60) lies ahead.
   */
  predicate IntendedSkipsLogin(cookie: Option<Cookie>, now: int) {
    cookie.Some? && now < cookie.value.expiry
  }

  /** `_login` with the intended test; the exchange and its failures are those of the code as written. */
  function IntendedLoginStep(cookie: Option<Cookie>, now: int, reply: LoginReply): (e: LoginEffect)
    ensures e.exchanged <==> !IntendedSkipsLogin(cookie, now)
    ensures e.failure.Some? ==> e.exchanged && e.cookie == cookie && Harvest(reply) == Failure(e.failure.value)
    ensures !e.exchanged ==> e.failure.None? && e.cookie == cookie
    ensures e.exchanged && e.failure.None? ==> Harvest(reply).Success? && e.cookie == Some(Harvest(reply).value)
    ensures !e.exchanged ==> e.cookie.Some? && now < e.cookie.value.expiry
    ensures e.failure.None? ==> e.cookie.Some?
  {
    if IntendedSkipsLogin(cookie, now) then LoginEffect(cookie, false, None)
    else match Harvest(reply)
      case Failure(err) => LoginEffect(cookie, true, Some(err))
      case Success(c) => LoginEffect(Some(c), true, None)
  }

  /** How many login exchanges the calls make under the intended test. */
  function IntendedExchanges(cookie: Option<Cookie>, calls: seq<(int, LoginReply)>): nat
    decreases |calls|
  {
    if calls == [] then 0
    else
      var e := IntendedLoginStep(cookie, calls[0].0, calls[0].1);
      (if e.exchanged then 1 else 0) + IntendedExchanges(e.cookie, calls[1..])
  }

  /** Under the intended test, calls made before a cached cookie expires never log in. */
  lemma {:induction false} IntendedReuseWhileFresh(c: Cookie, calls: seq<(int, LoginReply)>)
    requires forall i :: 0 <= i < |calls| ==> calls[i].0 < c.expiry
    ensures IntendedExchanges(Some(c), calls) == 0
  {
    if calls != [] {
      assert calls[0].0 < c.expiry;
      IntendedReuseWhileFresh(c, calls[1..]);
    }
  }

  /**
   * Under the intended test, the first call at or after the expiry logs in once;
   * when that login succeeds at clock t, no later call before t + 3600 logs in again.
   */
  lemma IntendedRenewsOnceAfterExpiry(c: Cookie, now: int, reply: LoginReply, calls: seq<(int, LoginReply)>)
    requires c.expiry <= now
    requires reply.status == 200 && CookieKey in reply.cookies
    requires forall i :: 0 <= i < |calls| ==> calls[i].0 < reply.clock + Lifetime
    ensures IntendedExchanges(Some(c), [(now, reply)] + calls) == 1
  {
    var e := IntendedLoginStep(Some(c), now, reply);
    assert e.exchanged && e.cookie == Some(Cookie(reply.cookies[CookieKey], reply.clock + Lifetime));
    assert ([(now, reply)] + calls)[1..] == calls;
    IntendedReuseWhileFresh(e.cookie.value, calls);
  }

  /**
   * The comparison as written on a concrete timeline: a cookie harvested at
   * clock 0 (expiry 3600) is not reused at time 10, yet a stale one is reused at time 4000.
   */
  lemma WrittenTestIsInverted(reply: LoginReply)
    ensures LoginStep(Some(Cookie("abc", 3600)), 10, reply).exchanged
    ensures !LoginStep(Some(Cookie("abc", 3600)), 4000, reply).exchanged
    ensures !IntendedLoginStep(Some(Cookie("abc", 3600)), 10, reply).exchanged
    ensures IntendedLoginStep(Some(Cookie("abc", 3600)), 4000, reply).exchanged
  {
  }
}
