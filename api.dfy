/**
  The vendor REST client: a cached bearer token, a lazy login, and one
  re-login plus one retried GET when the devices call is rejected with
  401 or 403.

  The HTTP server is an oracle: the session answers each request with the
  next reply of a fixed sequence, and records every request it was sent.
*/
module Api {
  import opened Wrappers
  import opened Python

  const ApiEndpoint := "https://api.cphtrackers.com/v2"
  const LoginUrl := ApiEndpoint + "/login"
  const DevicesUrl := ApiEndpoint + "/devices"

  /** What one HTTP exchange produced: a status with its decoded body, or no response at all. */
  datatype Reply = Response(status: int, body: Json) | ConnectionFailure

  /** The requests the client sends. */
  datatype Request =
    | LoginPost(url: string, email: string, password: string)
    | DevicesGet(url: string, authorization: string)

  /** The request `_async_get_access_token` posts. */
  function Login(email: string, password: string): Request {
    LoginPost(LoginUrl, email, password)
  }

  /** The request the devices call sends with the held token. */
  function Fetch(token: Json): (r: Request)
    ensures r.DevicesGet? && r.url == DevicesUrl
    ensures token.Str? ==> r.authorization == "Bearer " + token.s
  {
    DevicesGet(DevicesUrl, "Bearer " + Display(token))
  }

  // ---------------------------------------------------------------- the reply oracle

  /** The reply to the `k`-th request; once the oracle is exhausted nothing answers. */
  function ReplyAt(replies: seq<Reply>, k: nat): Reply {
    if k < |replies| then replies[k] else ConnectionFailure
  }

  /** The replies left after `k` requests. */
  function Drop(replies: seq<Reply>, k: nat): (r: seq<Reply>)
    ensures ReplyAt(r, 0) == ReplyAt(replies, k)
  {
    if k < |replies| then replies[k..] else []
  }

  lemma DropDrop(replies: seq<Reply>, a: nat, b: nat)
    ensures Drop(Drop(replies, a), b) == Drop(replies, a + b)
  {
  }

  /** `response.raise_for_status()`: aiohttp raises for every status of 400 or more. */
  predicate Failed(reply: Reply) {
    reply.Response? && reply.status >= 400
  }

  /** The statuses the client reads as an expired token. */
  predicate AuthRejected(reply: Reply) {
    reply.Response? && (reply.status == 401 || reply.status == 403)
  }

  /** `raise_for_status()` then `await response.json()` on a GET. */
  function DevicesOutcome(reply: Reply): (r: Result<Json, PyError>)
    ensures r.Ok? <==> reply.Response? && reply.status < 400
    ensures r.Ok? ==> r.value == reply.body
    ensures Failed(reply) ==> r == Err(HttpError(reply.status))
  {
    match reply
    case ConnectionFailure => Err(ConnectionError)
    case Response(status, body) => if status >= 400 then Err(HttpError(status)) else Ok(body)
  }

  /** `_async_get_access_token` after the post: check the status, then `data["access_token"]`. */
  function LoginOutcome(reply: Reply): (r: Result<Json, PyError>)
    ensures r.Ok? <==> reply.Response? && reply.status < 400 && Subscript(reply.body, "access_token").Ok?
    ensures r.Ok? ==> r == Subscript(reply.body, "access_token")
  {
    match reply
    case ConnectionFailure => Err(ConnectionError)
    case Response(status, body) => if status >= 400 then Err(HttpError(status)) else Subscript(body, "access_token")
  }

  // ---------------------------------------------------------------- specification of a call

  /** What one client call did: its outcome, the token held afterwards, the requests it sent. */
  datatype Run = Run(result: Result<Json, PyError>, token: Json, sent: seq<Request>)

  /** `async_ensure_token`: log in only when the held token is falsy; `Ok(Null)` is Python's `None` return. */
  function EnsureTokenRun(email: string, password: string, token: Json, replies: seq<Reply>): Run {
    if Truthy(token) then Run(Ok(Null), token, [])
    else
      match LoginOutcome(ReplyAt(replies, 0))
      case Ok(t) => Run(Ok(Null), t, [Login(email, password)])
      case Err(e) => Run(Err(e), token, [Login(email, password)])
  }

  /**
    The `try` block of `async_get_devices`, given the token held after
    `async_ensure_token` and the replies still to come: GET, and on 401/403
    log in again, store the new token and GET exactly once more.
  */
  function TryFetchRun(email: string, password: string, token: Json, replies: seq<Reply>): Run {
    var first := ReplyAt(replies, 0);
    if !AuthRejected(first) then Run(DevicesOutcome(first), token, [Fetch(token)])
    else
      match LoginOutcome(ReplyAt(replies, 1))
      case Err(e) => Run(Err(e), token, [Fetch(token), Login(email, password)])
      case Ok(renewed) =>
        Run(DevicesOutcome(ReplyAt(replies, 2)), renewed, [Fetch(token), Login(email, password), Fetch(renewed)])
  }

  /** `async_get_devices`: `async_ensure_token` outside the `try`, then the `try` block. */
  function GetDevicesRun(email: string, password: string, token: Json, replies: seq<Reply>): Run {
    var pre := EnsureTokenRun(email, password, token, replies);
    if pre.result.Err? then pre
    else
      var attempt := TryFetchRun(email, password, pre.token, Drop(replies, |pre.sent|));
      Run(attempt.result, attempt.token, pre.sent + attempt.sent)
  }

  // ---------------------------------------------------------------- the client

  /** The HTTP session: answers from the oracle and remembers what it was sent. */
  class Session {
    var replies: seq<Reply>
    ghost var sent: seq<Request>

    constructor (replies: seq<Reply>)
      ensures this.replies == replies && sent == []
    {
      this.replies := replies;
      sent := [];
    }

    method Send(request: Request) returns (reply: Reply)
      modifies this
      ensures reply == ReplyAt(old(replies), 0)
      ensures replies == Drop(old(replies), 1)
      ensures sent == old(sent) + [request]
    {
      if replies == [] {
        reply := ConnectionFailure;
      } else {
        reply := replies[0];
        replies := replies[1..];
      }
      sent := sent + [request];
    }
  }

  /** `CopenhagenTrackersAPI`; `accessToken == Null` is a token of `None`. */
  class TrackersApi {
    const session: Session
    const email: string
    const password: string
    var accessToken: Json

    /** Stores the credentials and the supplied token; sends nothing. */
    constructor (session: Session, email: string, password: string, accessToken: Option<string>)
      ensures this.session == session && this.email == email && this.password == password
      ensures this.accessToken == if accessToken.Some? then Str(accessToken.value) else Null
      ensures unchanged(session)
    {
      this.session := session;
      this.email := email;
      this.password := password;
      this.accessToken := if accessToken.Some? then Str(accessToken.value) else Null;
    }

    /** `_async_get_access_token`: posts the credentials and returns the token without storing it. */
    method AcquireToken() returns (r: Result<Json, PyError>)
      modifies session
      ensures r == LoginOutcome(ReplyAt(old(session.replies), 0))
      ensures session.replies == Drop(old(session.replies), 1)
      ensures session.sent == old(session.sent) + [Login(email, password)]
    {
      var reply := session.Send(Login(email, password));
      if reply.ConnectionFailure? {
        return Err(ConnectionError);
      }
      if reply.status >= 400 {
        return Err(HttpError(reply.status));
      }
      r := Subscript(reply.body, "access_token");
    }

    /** `async_ensure_token`. */
    method EnsureToken() returns (r: Result<Json, PyError>)
      modifies this`accessToken, session
      ensures var run := EnsureTokenRun(email, password, old(accessToken), old(session.replies));
        && r == run.result
        && accessToken == run.token
        && session.sent == old(session.sent) + run.sent
        && session.replies == Drop(old(session.replies), |run.sent|)
    {
      if !Truthy(accessToken) {
        var token := AcquireToken();
        if token.Err? {
          return Err(token.error);
        }
        accessToken := token.value;
      }
      r := Ok(Null);
    }

    /** `async_get_devices`. */
    method GetDevices() returns (r: Result<Json, PyError>)
      modifies this`accessToken, session
      ensures var run := GetDevicesRun(email, password, old(accessToken), old(session.replies));
        && r == run.result
        && accessToken == run.token
        && session.sent == old(session.sent) + run.sent
        && session.replies == Drop(old(session.replies), |run.sent|)
    {
      ghost var replies0 := session.replies;
      ghost var pre := EnsureTokenRun(email, password, accessToken, replies0);
      r := EnsureToken();
      if r.Err? {
        return;
      }
      ghost var sent1 := session.sent;
      ghost var attempt := TryFetchRun(email, password, accessToken, session.replies);
      r := TryFetch();
      DropDrop(replies0, |pre.sent|, |attempt.sent|);
      assert session.sent == sent1 + attempt.sent;
    }

    /** The `try` block of `async_get_devices`, with the token already ensured. */
    method TryFetch() returns (r: Result<Json, PyError>)
      modifies this`accessToken, session
      ensures var attempt := TryFetchRun(email, password, old(accessToken), old(session.replies));
        && r == attempt.result
        && accessToken == attempt.token
        && session.sent == old(session.sent) + attempt.sent
        && session.replies == Drop(old(session.replies), |attempt.sent|)
    {
      ghost var rest := session.replies;
      var reply := session.Send(Fetch(accessToken));
      if reply.Response? && reply.status < 400 {
        return Ok(reply.body);
      }
      if !AuthRejected(reply) {
        return DevicesOutcome(reply);
      }
      // Token expired: get a new one and retry once.
      var token := AcquireToken();
      DropDrop(rest, 1, 1);
      if token.Err? {
        return Err(token.error);
      }
      accessToken := token.value;
      var retry := session.Send(Fetch(accessToken));
      DropDrop(rest, 2, 1);
      r := DevicesOutcome(retry);
    }
  }

  // ---------------------------------------------------------------- properties of a call

  function Logins(sent: seq<Request>): nat {
    if sent == [] then 0 else (if sent[0].LoginPost? then 1 else 0) + Logins(sent[1..])
  }

  function Gets(sent: seq<Request>): nat {
    if sent == [] then 0 else (if sent[0].DevicesGet? then 1 else 0) + Gets(sent[1..])
  }

  lemma {:induction false} CountsAppend(a: seq<Request>, b: seq<Request>)
    ensures Logins(a + b) == Logins(a) + Logins(b)
    ensures Gets(a + b) == Gets(a) + Gets(b)
    decreases |a|
  {
    if a == [] {
      assert a + b == b;
    } else {
      assert (a + b)[1..] == a[1..] + b;
      CountsAppend(a[1..], b);
    }
  }

  /** A held (truthy) token is kept and nothing is sent; a falsy one triggers exactly one login. */
  lemma EnsureTokenLogsInOnlyWhenFalsy(email: string, password: string, token: Json, replies: seq<Reply>)
    ensures var run := EnsureTokenRun(email, password, token, replies);
      && (Truthy(token) ==> run == Run(Ok(Null), token, []))
      && (!Truthy(token) ==> run.sent == [Login(email, password)])
      && (!Truthy(token) && run.result.Ok? ==> run.token == LoginOutcome(ReplyAt(replies, 0)).value)
      && (run.result.Err? ==> run.token == token && run.result == LoginOutcome(ReplyAt(replies, 0)))
  {
  }

  /** With a token held and a successful GET: no login, one GET with that bearer, the body returned. */
  lemma HeldTokenSingleGet(email: string, password: string, token: string, replies: seq<Reply>)
    requires token != ""
    requires |replies| > 0 && replies[0].Response? && replies[0].status < 400
    ensures var run := GetDevicesRun(email, password, Str(token), replies);
      && run.result == Ok(replies[0].body)
      && run.token == Str(token)
      && run.sent == [DevicesGet(DevicesUrl, "Bearer " + token)]
      && Logins(run.sent) == 0 && Gets(run.sent) == 1
  {
  }

  /**
    A 401 or 403 with a held token: exactly one re-login, the new token
    replaces the old one, and exactly one retried GET carries the new token;
    its outcome, success or failure, is the call's outcome.
  */
  lemma RejectedTokenRetriedOnce(email: string, password: string, token: Json, replies: seq<Reply>)
    requires Truthy(token)
    requires AuthRejected(ReplyAt(replies, 0))
    requires LoginOutcome(ReplyAt(replies, 1)).Ok?
    ensures var renewed := LoginOutcome(ReplyAt(replies, 1)).value;
      var run := GetDevicesRun(email, password, token, replies);
      && run.token == renewed
      && run.sent == [Fetch(token), Login(email, password), Fetch(renewed)]
      && run.result == DevicesOutcome(ReplyAt(replies, 2))
      && Logins(run.sent) == 1 && Gets(run.sent) == 2
  {
    var renewed := LoginOutcome(ReplyAt(replies, 1)).value;
    CountsAppend([Fetch(token)], [Login(email, password)] + [Fetch(renewed)]);
    CountsAppend([Login(email, password)], [Fetch(renewed)]);
    assert [Fetch(token), Login(email, password), Fetch(renewed)]
        == [Fetch(token)] + ([Login(email, password)] + [Fetch(renewed)]);
  }

  /** A failed re-login after a 401/403 propagates; the old token stays and no second GET is sent. */
  lemma FailedReloginPropagates(email: string, password: string, token: Json, replies: seq<Reply>)
    requires Truthy(token)
    requires AuthRejected(ReplyAt(replies, 0))
    requires LoginOutcome(ReplyAt(replies, 1)).Err?
    ensures var run := GetDevicesRun(email, password, token, replies);
      && run.result == LoginOutcome(ReplyAt(replies, 1))
      && run.token == token
      && run.sent == [Fetch(token), Login(email, password)]
  {
  }

  /** Any other failed GET is raised at once: no login, token unchanged, one request. */
  lemma OtherFailureNotRetried(email: string, password: string, token: Json, replies: seq<Reply>)
    requires Truthy(token)
    requires !AuthRejected(ReplyAt(replies, 0))
    requires DevicesOutcome(ReplyAt(replies, 0)).Err?
    ensures var run := GetDevicesRun(email, password, token, replies);
      && run.result == DevicesOutcome(ReplyAt(replies, 0))
      && run.token == token
      && run.sent == [Fetch(token)]
      && Logins(run.sent) == 0
  {
  }

  /** A failed initial login happens before the `try`: it propagates and no GET is sent. */
  lemma InitialLoginFailureNotRetried(email: string, password: string, token: Json, replies: seq<Reply>)
    requires !Truthy(token)
    requires LoginOutcome(ReplyAt(replies, 0)).Err?
    ensures var run := GetDevicesRun(email, password, token, replies);
      && run.result == LoginOutcome(ReplyAt(replies, 0))
      && run.token == token
      && run.sent == [Login(email, password)]
      && Gets(run.sent) == 0
  {
  }

  /**
    The `except` branch for whatever token the `try` block starts with:
    after a 401/403 and a successful login, the renewed token is stored and
    one GET carries it; a failed login is raised with the token kept; any
    other failure is raised at once.
  */
  lemma TryFetchRetriesOnlyRejection(email: string, password: string, token: Json, replies: seq<Reply>)
    ensures var attempt := TryFetchRun(email, password, token, replies);
      var relogin := LoginOutcome(ReplyAt(replies, 1));
      && (AuthRejected(ReplyAt(replies, 0)) && relogin.Ok? ==>
            && attempt.token == relogin.value
            && attempt.sent == [Fetch(token), Login(email, password), Fetch(relogin.value)]
            && attempt.result == DevicesOutcome(ReplyAt(replies, 2)))
      && (AuthRejected(ReplyAt(replies, 0)) && relogin.Err? ==>
            attempt == Run(relogin, token, [Fetch(token), Login(email, password)]))
      && (!AuthRejected(ReplyAt(replies, 0)) ==>
            attempt == Run(DevicesOutcome(ReplyAt(replies, 0)), token, [Fetch(token)]))
  {
  }

  /**
    Without a token the call logs in first; when the GET with that fresh
    token is still rejected, it logs in a second time and retries once with
    the newer token.
  */
  lemma FreshTokenRejectedRetriedOnce(email: string, password: string, token: Json, replies: seq<Reply>)
    requires !Truthy(token)
    requires LoginOutcome(ReplyAt(replies, 0)).Ok?
    requires AuthRejected(ReplyAt(replies, 1))
    requires LoginOutcome(ReplyAt(replies, 2)).Ok?
    ensures var first := LoginOutcome(ReplyAt(replies, 0)).value;
      var renewed := LoginOutcome(ReplyAt(replies, 2)).value;
      var run := GetDevicesRun(email, password, token, replies);
      && run.token == renewed
      && run.sent == [Login(email, password), Fetch(first), Login(email, password), Fetch(renewed)]
      && run.result == DevicesOutcome(ReplyAt(replies, 3))
  {
    var rest := Drop(replies, 1);
    assert ReplyAt(rest, 1) == ReplyAt(replies, 2) && ReplyAt(rest, 2) == ReplyAt(replies, 3) by {
      DropDrop(replies, 1, 1);
      DropDrop(replies, 1, 2);
      assert ReplyAt(Drop(rest, 1), 0) == ReplyAt(rest, 1);
      assert ReplyAt(Drop(rest, 2), 0) == ReplyAt(rest, 2);
    }
    TryFetchRetriesOnlyRejection(email, password, LoginOutcome(ReplyAt(replies, 0)).value, rest);
  }

  /** The `try` block sends one GET, or GET, login, GET after a 401/403, or GET, login when that login fails. */
  lemma TryFetchSendsAtMostTwoGets(email: string, password: string, token: Json, replies: seq<Reply>)
    ensures var attempt := TryFetchRun(email, password, token, replies);
      && Logins(attempt.sent) <= 1
      && 1 <= Gets(attempt.sent) <= 2
      && |attempt.sent| <= 3
      && (Gets(attempt.sent) == 2 || Logins(attempt.sent) == 1 <==> AuthRejected(ReplyAt(replies, 0)))
  {
    var attempt := TryFetchRun(email, password, token, replies);
    if AuthRejected(ReplyAt(replies, 0)) {
      var tail := attempt.sent[1..];
      assert attempt.sent == [Fetch(token)] + tail;
      CountsAppend([Fetch(token)], tail);
      if |tail| == 2 {
        assert tail == [tail[0]] + [tail[1]];
        CountsAppend([tail[0]], [tail[1]]);
      }
    }
  }

  /**
    The retry is bounded whatever the server answers: at most two logins and
    two GETs, and a second GET is sent only after a 401/403 to the first.
  */
  lemma {:induction false} RetryIsBounded(email: string, password: string, token: Json, replies: seq<Reply>)
    ensures var run := GetDevicesRun(email, password, token, replies);
      var pre := EnsureTokenRun(email, password, token, replies);
      && Logins(run.sent) <= 2
      && Gets(run.sent) <= 2
      && |run.sent| <= 4
      && (Gets(run.sent) == 2 ==> AuthRejected(ReplyAt(replies, |pre.sent|)))
      && (Truthy(token) && !AuthRejected(ReplyAt(replies, 0)) ==> Logins(run.sent) == 0)
  {
    var pre := EnsureTokenRun(email, password, token, replies);
    if pre.result.Ok? {
      var rest := Drop(replies, |pre.sent|);
      var attempt := TryFetchRun(email, password, pre.token, rest);
      TryFetchSendsAtMostTwoGets(email, password, pre.token, rest);
      CountsAppend(pre.sent, attempt.sent);
      assert ReplyAt(rest, 0) == ReplyAt(replies, |pre.sent|);
    }
  }

  /**
    Starting without a token, two fetches that both succeed make one login
    and two GETs in all: the token from the first call is reused by the second.
  */
  lemma {:induction false} TwoFetchesOneLogin(email: string, password: string, replies: seq<Reply>)
    requires |replies| == 3
    requires LoginOutcome(replies[0]).Ok? && Truthy(LoginOutcome(replies[0]).value)
    requires replies[1].Response? && replies[1].status < 400
    requires replies[2].Response? && replies[2].status < 400
    ensures var first := GetDevicesRun(email, password, Null, replies);
      var second := GetDevicesRun(email, password, first.token, Drop(replies, |first.sent|));
      && first.result == Ok(replies[1].body)
      && second.result == Ok(replies[2].body)
      && second.token == first.token
      && Logins(first.sent + second.sent) == 1
      && Gets(first.sent + second.sent) == 2
  {
    var first := GetDevicesRun(email, password, Null, replies);
    var t := LoginOutcome(replies[0]).value;
    assert first.sent == [Login(email, password), Fetch(t)];
    var second := GetDevicesRun(email, password, first.token, Drop(replies, |first.sent|));
    assert second.sent == [Fetch(t)];
    CountsAppend(first.sent, second.sent);
    CountsAppend([Login(email, password)], [Fetch(t)]);
  }
}
