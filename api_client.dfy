/** The API client: the classification of a failed request into an `ApiError`,
    the request interceptor's `Authorization` header, the central error
    handler that logs every error, logs out and re-authorizes on 401 and then
    re-issues a request, and the lazily created single client.

    The auth module's token store, the server and the console are outside the
    client; a `Session` stands for all three: the stored token, the token an
    authorization stores, the server's answers to the next requests in order,
    and the trace of what the client did to them. */
module ApiClient {

  import opened Wrappers

  // ---------------------------------------------------------------------
  // Errors

  /** The body the server sent with a failing status: its `message` field,
      if any, and the body as a whole. */
  datatype ResponseData = ResponseData(message: Option<string>, raw: string)

  /** `ApiError`: a status, a message, and the server's body when there was one. */
  datatype ApiError = ApiError(status: nat, message: string, data: Option<ResponseData>)

  /** How a request failed, as the response interceptor sees it. */
  datatype RequestFailure =
    | Responded(status: nat, data: ResponseData)  // the server answered with a non-2xx status
    | NoResponse                                  // the request went out, nothing came back
    | SetupFailed(message: string)                // the request could not be set up

  const DefaultMessage: string := "An error occurred"
  const NoResponseMessage: string := "No response received from server"

  /** `handleError`'s classification. A server answer keeps its status and body
      and takes the body's `message` when that is truthy; the other two kinds
      have status 0 and no body. The error is an unauthorized one (status 401)
      exactly when the server answered 401. */
  function Classify(f: RequestFailure): (e: ApiError)
    ensures e.data.Some? <==> f.Responded?
    ensures e.status == 401 <==> f.Responded? && f.status == 401
    ensures f.Responded? ==> e.status == f.status && e.data == Some(f.data)
    ensures f.Responded? && Truthy(f.data.message) ==> e.message == f.data.message.value
    ensures f.Responded? && !Truthy(f.data.message) ==> e.message == DefaultMessage
    ensures f.NoResponse? ==> e.status == 0 && e.message == NoResponseMessage
    ensures f.SetupFailed? ==> e.status == 0 && e.message == f.message
  {
    match f
    case Responded(status, data) =>
      ApiError(status, if Truthy(data.message) then data.message.value else DefaultMessage, Some(data))
    case NoResponse => ApiError(0, NoResponseMessage, None)
    case SetupFailed(message) => ApiError(0, message, None)
  }

  // ---------------------------------------------------------------------
  // What the client does to the outside, and what the server answers

  /** An observable step of the client. */
  datatype Event =
    | Authorized                     // `auth.authorize()` completed
    | LoggedOut                      // `auth.logout()`
    | Sent(authorization: string)    // a request went out with this `Authorization` header
    | Logged(error: ApiError)        // `console.error` of a classified error

  /** A successful response, passed through unchanged. */
  datatype Response = Response(status: nat, body: string)

  /** The server's answer to one request. */
  datatype Reply = Answered(response: Response) | Failed(failure: RequestFailure)

  /** How a request settles: with a response, or still waiting because the
      server has not answered the last request sent. There is no rejected
      case: every failure is handled by re-issuing a request, the
      authorization after a 401 always succeeds, and every failing answer
      has a body. */
  datatype Settled = Resolved(response: Response) | Pending

  // ---------------------------------------------------------------------
  // The interceptor's header rule

  const AuthorizationKey: string := "Authorization"
  const BearerPrefix: string := "Bearer "

  /** `Bearer ${token}`: the prefix and the token's text, "undefined" when there is none. */
  function BearerHeader(token: Option<string>): string {
    BearerPrefix + (match token case Some(t) => t case None => "undefined")
  }

  /** The token a header carries: the text after the prefix. */
  function HeaderToken(header: string): Option<string> {
    if |header| >= |BearerPrefix| && header[..|BearerPrefix|] == BearerPrefix then Some(header[|BearerPrefix|..]) else None
  }

  /** Every header has the prefix, and the token's text reads back from it. */
  lemma BearerHeaderReadsBack(token: Option<string>)
    ensures HeaderToken(BearerHeader(token)) == Some(match token case Some(t) => t case None => "undefined")
  {
    assert BearerHeader(token)[..|BearerPrefix|] == BearerPrefix;
  }

  /** Two present tokens give the same header exactly when they are equal. */
  lemma BearerHeaderDistinguishes(a: string, b: string)
    ensures BearerHeader(Some(a)) == BearerHeader(Some(b)) <==> a == b
  {
    BearerHeaderReadsBack(Some(a));
    BearerHeaderReadsBack(Some(b));
  }

  /** The token the interceptor puts in the header: the stored one when it is
      truthy; otherwise, after an authorization, whatever is stored then,
      without checking it again. */
  function InterceptedToken(token: Option<string>, granted: Option<string>): Option<string> {
    if Truthy(token) then token else granted
  }

  /** The interceptor authorizes exactly when the stored token is not truthy. */
  function InterceptEvents(token: Option<string>): seq<Event> {
    if Truthy(token) then [] else [Authorized]
  }

  /** Intercepting twice gives the same token as intercepting once, and the
      second time authorizes only when the authorization yields no truthy token. */
  lemma InterceptSettles(token: Option<string>, granted: Option<string>)
    ensures InterceptedToken(InterceptedToken(token, granted), granted) == InterceptedToken(token, granted)
    ensures InterceptEvents(InterceptedToken(token, granted)) == [] <==> Truthy(token) || Truthy(granted)
  {
  }

  // ---------------------------------------------------------------------
  // The central error handler and the retry chain, as specification

  /** What `centralErrorHandler` does before the retry: log the error; on 401,
      log out and then authorize. */
  function HandlerEvents(e: ApiError): seq<Event> {
    [Logged(e)] + (if e.status == 401 then [LoggedOut, Authorized] else [])
  }

  /** The stored token once the handler reaches the retry: on 401 it was
      cleared and then replaced by what the authorization stores. */
  function HandledToken(token: Option<string>, granted: Option<string>, e: ApiError): Option<string> {
    if e.status == 401 then granted else token
  }

  /** What the interceptor and the send do for one request: authorize when
      the stored token is not truthy, then send with the header. */
  function Requested(token: Option<string>, granted: Option<string>): seq<Event> {
    InterceptEvents(token) + [Sent(BearerHeader(InterceptedToken(token, granted)))]
  }

  /** One request from the interceptor to its settlement: what it did, how it
      settled, the stored token afterwards, and the server answers left over. */
  datatype Run = Run(events: seq<Event>, settled: Settled, token: Option<string>, rest: seq<Reply>)

  /** A request issued with `token` stored, `granted` being what an
      authorization stores and `replies` the server's next answers: the
      interceptor sets the header and the request is sent; an answer resolves
      it; a failure is classified, handled, and a new request is issued, whose
      outcome is the outcome. */
  function Chain(token: Option<string>, granted: Option<string>, replies: seq<Reply>): Run
    decreases |replies|
  {
    var t := InterceptedToken(token, granted);
    if replies == [] then Run(Requested(token, granted), Pending, t, [])
    else if replies[0].Answered? then Run(Requested(token, granted), Resolved(replies[0].response), t, replies[1..])
    else
      var e := Classify(replies[0].failure);
      var next := Chain(HandledToken(t, granted, e), granted, replies[1..]);
      Run(Requested(token, granted) + HandlerEvents(e) + next.events, next.settled, next.token, next.rest)
  }

  // ---------------------------------------------------------------------
  // Reading a trace

  /** The `Authorization` headers of the requests sent, in order. */
  function SentHeaders(events: seq<Event>): seq<string> {
    if events == [] then []
    else if events[0].Sent? then [events[0].authorization] + SentHeaders(events[1..])
    else SentHeaders(events[1..])
  }

  /** The errors logged, in order. */
  function LoggedErrors(events: seq<Event>): seq<ApiError> {
    if events == [] then []
    else if events[0].Logged? then [events[0].error] + LoggedErrors(events[1..])
    else LoggedErrors(events[1..])
  }

  lemma {:induction false} SentHeadersConcat(a: seq<Event>, b: seq<Event>)
    ensures SentHeaders(a + b) == SentHeaders(a) + SentHeaders(b)
  {
    if a == [] {
      assert a + b == b;
    } else {
      var ab := a + b;
      assert ab[0] == a[0] && ab[1..] == a[1..] + b;
      SentHeadersConcat(a[1..], b);
    }
  }

  lemma {:induction false} LoggedErrorsConcat(a: seq<Event>, b: seq<Event>)
    ensures LoggedErrors(a + b) == LoggedErrors(a) + LoggedErrors(b)
  {
    if a == [] {
      assert a + b == b;
    } else {
      var ab := a + b;
      assert ab[0] == a[0] && ab[1..] == a[1..] + b;
      LoggedErrorsConcat(a[1..], b);
    }
  }

  /** The failures the server answers with before its first successful answer. */
  function LeadingFailures(replies: seq<Reply>): (r: seq<RequestFailure>)
    ensures |r| <= |replies|
    ensures forall k :: 0 <= k < |r| ==> replies[k] == Failed(r[k])
    ensures |r| < |replies| ==> replies[|r|].Answered?
  {
    if replies == [] || replies[0].Answered? then []
    else [replies[0].failure] + LeadingFailures(replies[1..])
  }

  /** Each failure's classification, in order. */
  function Classified(failures: seq<RequestFailure>): (r: seq<ApiError>)
    ensures |r| == |failures|
    ensures forall k :: 0 <= k < |failures| ==> r[k] == Classify(failures[k])
  {
    if failures == [] then [] else [Classify(failures[0])] + Classified(failures[1..])
  }

  /** One request's interceptor and send contribute its header and no error. */
  lemma RequestedTrace(token: Option<string>, granted: Option<string>)
    ensures SentHeaders(Requested(token, granted)) == [BearerHeader(InterceptedToken(token, granted))]
    ensures LoggedErrors(Requested(token, granted)) == []
    ensures LoggedOut !in Requested(token, granted)
    ensures forall x :: x in Requested(token, granted) ==> !x.Logged?
  {
    var r, sent := Requested(token, granted), Sent(BearerHeader(InterceptedToken(token, granted)));
    SingleTrace(sent);
    if !Truthy(token) {
      assert r == [Authorized, sent] && r[0] == Authorized && r[1..] == [sent];
    } else {
      assert r == [sent];
    }
  }

  /** A one-event trace contributes its header when it is a send and its
      error when it is a log entry. */
  lemma SingleTrace(x: Event)
    ensures SentHeaders([x]) == (if x.Sent? then [x.authorization] else [])
    ensures LoggedErrors([x]) == (if x.Logged? then [x.error] else [])
  {
    assert [x][1..] == [];
  }

  /** The handler contributes its error and no request. */
  lemma HandlerTrace(e: ApiError)
    ensures SentHeaders(HandlerEvents(e)) == []
    ensures LoggedErrors(HandlerEvents(e)) == [e]
  {
    SingleTrace(Logged(e));
    if e.status == 401 {
      SingleTrace(LoggedOut);
      SingleTrace(Authorized);
      assert [LoggedOut, Authorized] == [LoggedOut] + [Authorized];
      SentHeadersConcat([LoggedOut], [Authorized]);
      LoggedErrorsConcat([LoggedOut], [Authorized]);
      SentHeadersConcat([Logged(e)], [LoggedOut, Authorized]);
      LoggedErrorsConcat([Logged(e)], [LoggedOut, Authorized]);
    } else {
      assert HandlerEvents(e) == [Logged(e)];
    }
  }

  /** A request whose answer is a failure: its headers and errors are its own
      followed by those of the request the handler issues. */
  lemma ChainStep(token: Option<string>, granted: Option<string>, replies: seq<Reply>)
    requires replies != [] && replies[0].Failed?
    ensures var e := Classify(replies[0].failure);
            var next := Chain(HandledToken(InterceptedToken(token, granted), granted, e), granted, replies[1..]);
            var run := Chain(token, granted, replies);
            && SentHeaders(run.events) == [BearerHeader(InterceptedToken(token, granted))] + SentHeaders(next.events)
            && LoggedErrors(run.events) == [e] + LoggedErrors(next.events)
  {
    var e := Classify(replies[0].failure);
    var next := Chain(HandledToken(InterceptedToken(token, granted), granted, e), granted, replies[1..]);
    var req := Requested(token, granted);
    ChainFailed(token, granted, replies);
    RequestedTrace(token, granted);
    HandlerTrace(e);
    SentHeadersConcat(req, HandlerEvents(e));
    SentHeadersConcat(req + HandlerEvents(e), next.events);
    LoggedErrorsConcat(req, HandlerEvents(e));
    LoggedErrorsConcat(req + HandlerEvents(e), next.events);
  }

  /** A request answered with a failure: its trace is its own request, the
      handler's steps and the trace of the request the handler issues. */
  lemma ChainFailed(token: Option<string>, granted: Option<string>, replies: seq<Reply>)
    requires replies != [] && replies[0].Failed?
    ensures var e := Classify(replies[0].failure);
            var next := Chain(HandledToken(InterceptedToken(token, granted), granted, e), granted, replies[1..]);
            Chain(token, granted, replies) == Run(Requested(token, granted) + HandlerEvents(e) + next.events, next.settled, next.token, next.rest)
  {
  }

  /** Every request chain starts with its own interceptor and send. */
  lemma ChainStartsWithRequest(token: Option<string>, granted: Option<string>, replies: seq<Reply>)
    ensures |Requested(token, granted)| <= |Chain(token, granted, replies).events|
    ensures Chain(token, granted, replies).events[..|Requested(token, granted)|] == Requested(token, granted)
  {
  }

  // ---------------------------------------------------------------------
  // What the chain does

  /** A request resolves with the server's first successful answer, after
      handling every failure before it: each is classified and logged in
      order, and each leads to exactly one more request, so one request more
      is sent than errors are logged. Nothing bounds the number of retries.
      When the server never answers successfully, the request stays pending. */
  lemma {:induction false} ChainOutcome(token: Option<string>, granted: Option<string>, replies: seq<Reply>)
    ensures var run := Chain(token, granted, replies);
            var n := |LeadingFailures(replies)|;
            && run.settled == (if n < |replies| then Resolved(replies[n].response) else Pending)
            && run.rest == (if n < |replies| then replies[n + 1..] else [])
            && LoggedErrors(run.events) == Classified(LeadingFailures(replies))
            && |SentHeaders(run.events)| == n + 1
    decreases |replies|
  {
    if replies != [] && replies[0].Failed? {
      var e := Classify(replies[0].failure);
      var t := HandledToken(InterceptedToken(token, granted), granted, e);
      ChainOutcome(t, granted, replies[1..]);
      ChainStep(token, granted, replies);
      assert LeadingFailures(replies) == [replies[0].failure] + LeadingFailures(replies[1..]);
      var n := |LeadingFailures(replies[1..])|;
      if n < |replies[1..]| {
        assert replies[1..][n + 1..] == replies[n + 2..];
      }
    } else {
      RequestedTrace(token, granted);
    }
  }

  /** The headers of the requests sent, against the errors logged between
      them: one request more than errors; after a 401 the next request carries
      the token the authorization stored; after any other error it carries the
      same header as the request before it. */
  predicate HeadersFollow(headers: seq<string>, errors: seq<ApiError>, authorized: string) {
    && |headers| == |errors| + 1
    && forall k :: 0 <= k < |errors| ==>
         headers[k + 1] == if errors[k].status == 401 then authorized else headers[k]
  }

  /** Putting one more request and error in front keeps the headers following
      the errors when the old first header follows the new error. */
  lemma HeadersFollowCons(h: string, e: ApiError, headers: seq<string>, errors: seq<ApiError>, authorized: string)
    requires HeadersFollow(headers, errors, authorized)
    requires headers[0] == if e.status == 401 then authorized else h
    ensures HeadersFollow([h] + headers, [e] + errors, authorized)
  {
    var hs, es := [h] + headers, [e] + errors;
    forall k | 0 <= k < |es|
      ensures hs[k + 1] == if es[k].status == 401 then authorized else hs[k]
    {
      if k > 0 {
        assert es[k] == errors[k - 1] && hs[k + 1] == headers[k] && hs[k] == headers[k - 1];
      }
    }
  }

  /** The first request carries the token the interceptor settles on, and
      every later header follows the error logged before it. */
  lemma {:induction false} ChainHeaders(token: Option<string>, granted: Option<string>, replies: seq<Reply>)
    ensures var run := Chain(token, granted, replies);
            && HeadersFollow(SentHeaders(run.events), LoggedErrors(run.events), BearerHeader(granted))
            && SentHeaders(run.events)[0] == BearerHeader(InterceptedToken(token, granted))
    decreases |replies|
  {
    if replies != [] && replies[0].Failed? {
      var e := Classify(replies[0].failure);
      var t := HandledToken(InterceptedToken(token, granted), granted, e);
      var next := Chain(t, granted, replies[1..]);
      ChainHeaders(t, granted, replies[1..]);
      ChainStep(token, granted, replies);
      InterceptSettles(token, granted);
      HeadersFollowCons(BearerHeader(InterceptedToken(token, granted)), e, SentHeaders(next.events), LoggedErrors(next.events), BearerHeader(granted));
    } else {
      RequestedTrace(token, granted);
    }
  }

  /** The logout at `j` comes right after a logged 401 error, is followed at
      once by an authorization, and a request with the header `authorized` is
      sent after both. */
  predicate LogoutFollowedAt(ev: seq<Event>, j: nat, authorized: string)
    requires j < |ev|
  {
    && 0 < j && j + 2 < |ev|
    && ev[j - 1].Logged? && ev[j - 1].error.status == 401
    && ev[j + 1] == Authorized
    && Sent(authorized) in ev[j + 2..]
  }

  /** Every logout in `ev` is followed as `LogoutFollowedAt` says. */
  predicate LogoutsFollowed(ev: seq<Event>, authorized: string) {
    forall j: nat :: j < |ev| && ev[j] == LoggedOut ==> LogoutFollowedAt(ev, j, authorized)
  }

  /** Putting events in front of a followed logout keeps it followed. */
  lemma LogoutFollowedShift(pre: seq<Event>, ev: seq<Event>, j: nat, authorized: string)
    requires j < |ev| && LogoutFollowedAt(ev, j, authorized)
    ensures LogoutFollowedAt(pre + ev, |pre| + j, authorized)
  {
    var all := pre + ev;
    assert all[|pre| + j - 1] == ev[j - 1] && all[|pre| + j + 1] == ev[j + 1];
    assert all[|pre| + j + 2..] == ev[j + 2..];
  }

  /** The handler's own logout, after a 401, is followed when the chain after
      it sends `authorized`. */
  lemma LogoutInHandler(req: seq<Event>, e: ApiError, next: seq<Event>, authorized: string)
    requires e.status == 401 ==> Sent(authorized) in next
    ensures forall k :: 0 <= k < |HandlerEvents(e)| && HandlerEvents(e)[k] == LoggedOut ==>
              k == 1 && LogoutFollowedAt(req + HandlerEvents(e) + next, |req| + 1, authorized)
  {
    var handler := HandlerEvents(e);
    if e.status == 401 {
      assert handler == [Logged(e), LoggedOut, Authorized];
      assert (handler + next)[3..] == next;
      assert LogoutFollowedAt(handler + next, 1, authorized);
      assert req + handler + next == req + (handler + next);
      LogoutFollowedShift(req, handler + next, 1, authorized);
    } else {
      assert handler == [Logged(e)];
    }
  }

  /** A request without a logout, then the handler of `e`, then a chain whose
      logouts are followed: the whole is followed when, after a 401, the chain
      sends `authorized`. */
  lemma LogoutsFollowedStep(req: seq<Event>, e: ApiError, next: seq<Event>, authorized: string)
    requires LoggedOut !in req
    requires LogoutsFollowed(next, authorized)
    requires e.status == 401 ==> Sent(authorized) in next
    ensures LogoutsFollowed(req + HandlerEvents(e) + next, authorized)
  {
    var handler := HandlerEvents(e);
    var ev := req + handler + next;
    var h := |req| + |handler|;
    forall j: nat | j < |ev| && ev[j] == LoggedOut
      ensures LogoutFollowedAt(ev, j, authorized)
    {
      if j < |req| {
        assert false;
      } else if j < h {
        assert ev[j] == handler[j - |req|];
        LogoutInHandler(req, e, next, authorized);
      } else {
        assert ev[j] == next[j - h];
        LogoutFollowedShift(req + handler, next, j - h, authorized);
      }
    }
  }

  /** Every logged 401 error in `ev` is followed at once by a logout and then
      an authorization. */
  predicate UnauthorizedHandled(ev: seq<Event>) {
    forall j :: 0 <= j < |ev| && ev[j].Logged? && ev[j].error.status == 401 ==>
      j + 2 < |ev| && ev[j + 1] == LoggedOut && ev[j + 2] == Authorized
  }

  /** A request without a log entry, then the handler of `e`, then a trace
      whose 401 errors are handled: the whole has its 401 errors handled. */
  lemma UnauthorizedHandledStep(req: seq<Event>, e: ApiError, next: seq<Event>)
    requires forall x :: x in req ==> !x.Logged?
    requires UnauthorizedHandled(next)
    ensures UnauthorizedHandled(req + HandlerEvents(e) + next)
  {
    var ev := req + HandlerEvents(e) + next;
    var h := |req| + |HandlerEvents(e)|;
    forall j | 0 <= j < |ev| && ev[j].Logged? && ev[j].error.status == 401
      ensures j + 2 < |ev| && ev[j + 1] == LoggedOut && ev[j + 2] == Authorized
    {
      if j < |req| {
        assert false;
      } else if j < h {
        assert j == |req| && ev[j] == Logged(e);
      } else {
        assert ev[j] == next[j - h];
        assert ev[j + 1] == next[j + 1 - h];
        assert ev[j + 2] == next[j + 2 - h];
      }
    }
  }

  /** In the trace of any request, a logout happens exactly right after a
      logged 401 error; it is followed at once by an authorization, and a
      request carrying the token the authorization stored is sent after both. */
  lemma {:induction false} ChainLogoutThenAuthorize(token: Option<string>, granted: Option<string>, replies: seq<Reply>)
    ensures LogoutsFollowed(Chain(token, granted, replies).events, BearerHeader(granted))
    ensures UnauthorizedHandled(Chain(token, granted, replies).events)
    decreases |replies|
  {
    RequestedTrace(token, granted);
    var req := Requested(token, granted);
    if replies != [] && replies[0].Failed? {
      var e := Classify(replies[0].failure);
      var t := HandledToken(InterceptedToken(token, granted), granted, e);
      var next := Chain(t, granted, replies[1..]).events;
      ChainLogoutThenAuthorize(t, granted, replies[1..]);
      ChainStartsWithRequest(t, granted, replies[1..]);
      if e.status == 401 {
        var sent := Sent(BearerHeader(granted));
        assert Requested(t, granted)[|Requested(t, granted)| - 1] == sent;
        assert next[|Requested(t, granted)| - 1] == sent;
      }
      LogoutsFollowedStep(req, e, next, BearerHeader(granted));
      UnauthorizedHandledStep(req, e, next);
    } else {
      var ev := Chain(token, granted, replies).events;
      assert ev == req;
    }
  }

  // ---------------------------------------------------------------------
  // The client

  /** The auth module's token store, the server and the console, as the
      client meets them: `token` is the stored token, `granted` what an
      authorization stores, `replies` the server's answers to the next
      requests in order, and `trace` what the client did so far. */
  class Session {
    var token: Option<string>
    const granted: Option<string>
    var replies: seq<Reply>
    var trace: seq<Event>

    constructor (token: Option<string>, granted: Option<string>, replies: seq<Reply>)
      ensures this.token == token && this.granted == granted && this.replies == replies && trace == []
    {
      this.token, this.granted, this.replies, trace := token, granted, replies, [];
    }

    /** `auth.getToken()`. */
    method GetToken() returns (t: Option<string>)
      ensures t == token
    {
      t := token;
    }

    /** `auth.authorize()`: stores the granted token. */
    method Authorize()
      modifies this
      ensures token == granted && replies == old(replies) && trace == old(trace) + [Authorized]
    {
      token := granted;
      trace := trace + [Authorized];
    }

    /** `auth.logout()`: clears the stored token. */
    method Logout()
      modifies this
      ensures token == None && replies == old(replies) && trace == old(trace) + [LoggedOut]
    {
      token := None;
      trace := trace + [LoggedOut];
    }

    /** `console.error` of a classified error. */
    method Log(e: ApiError)
      modifies this
      ensures token == old(token) && replies == old(replies) && trace == old(trace) + [Logged(e)]
    {
      trace := trace + [Logged(e)];
    }

    /** Sends a request with the given header and takes the server's next
      answer; there is none when the server has not answered yet. */
    method Send(authorization: string) returns (reply: Option<Reply>)
      modifies this
      ensures token == old(token) && trace == old(trace) + [Sent(authorization)]
      ensures old(replies) == [] ==> reply == None && replies == []
      ensures old(replies) != [] ==> reply == Some(old(replies)[0]) && replies == old(replies)[1..]
    {
      trace := trace + [Sent(authorization)];
      if replies == [] {
        reply := None;
      } else {
        reply := Some(replies[0]);
        replies := replies[1..];
      }
    }
  }

  /** The headers the client's instance sets on every request. */
  const DefaultHeaders: map<string, string> := map["Content-Type" := "application/json"]

  /** A request's configuration, whose headers the interceptor writes in place. */
  class RequestConfig {
    var headers: map<string, string>

    /** A configuration with the instance's default headers. */
    constructor ()
      ensures headers == DefaultHeaders
    {
      headers := DefaultHeaders;
    }
  }

  /** `ApiClient`: its request pipeline over a session. */
  class Client {
    const session: Session

    constructor (session: Session)
      ensures this.session == session
    {
      this.session := session;
    }

    /** The request interceptor: reads the token; when it is truthy the header
        is `Bearer <token>`; otherwise it authorizes, reads the token again and
        writes the header from it without checking it. */
    method Intercept(config: RequestConfig)
      modifies config, session
      ensures session.token == InterceptedToken(old(session.token), session.granted)
      ensures session.replies == old(session.replies)
      ensures session.trace == old(session.trace) + InterceptEvents(old(session.token))
      ensures config.headers == old(config.headers)[AuthorizationKey := BearerHeader(session.token)]
    {
      var token := session.GetToken();
      if Truthy(token) {
        config.headers := config.headers[AuthorizationKey := BearerHeader(token)];
      } else {
        session.Authorize();
        var newToken := session.GetToken();
        config.headers := config.headers[AuthorizationKey := BearerHeader(newToken)];
      }
    }

    /** A request through the pipeline: the interceptor, the send, and on a
        failure the response interceptor's error handler, whose outcome is the
        request's. It settles as the specification chain says. */
    method Request(config: RequestConfig) returns (outcome: Settled)
      modifies config, session
      decreases |session.replies|, 0
      ensures var run := Chain(old(session.token), session.granted, old(session.replies));
              && outcome == run.settled
              && session.token == run.token
              && session.replies == run.rest
              && session.trace == old(session.trace) + run.events
      ensures config.headers == old(config.headers)[AuthorizationKey := BearerHeader(InterceptedToken(old(session.token), session.granted))]
    {
      ghost var token, replies, trace := session.token, session.replies, session.trace;
      ghost var headers := config.headers[AuthorizationKey := BearerHeader(InterceptedToken(token, session.granted))];
      Intercept(config);
      assert config.headers == headers;
      var reply := session.Send(config.headers[AuthorizationKey]);
      assert session.trace == trace + Requested(token, session.granted);
      match reply {
        case None =>
          outcome := Pending;
        case Some(Answered(response)) =>
          outcome := Resolved(response);
        case Some(Failed(failure)) =>
          outcome := HandleError(failure);
          ChainFailed(token, session.granted, replies);
      }
    }

    /** `handleError`: classifies the failure and hands it to the central handler. */
    method HandleError(failure: RequestFailure) returns (outcome: Settled)
      modifies session
      decreases |session.replies|, 2
      ensures var e := Classify(failure);
              var run := Chain(HandledToken(old(session.token), session.granted, e), session.granted, old(session.replies));
              && outcome == run.settled
              && session.token == run.token
              && session.replies == run.rest
              && session.trace == old(session.trace) + HandlerEvents(e) + run.events
    {
      outcome := CentralErrorHandler(Classify(failure));
    }

    /** `centralErrorHandler`: logs the error; on 401 logs out and then
        authorizes; then re-issues a request, with a configuration of its own,
        and returns its outcome. */
    method CentralErrorHandler(e: ApiError) returns (outcome: Settled)
      modifies session
      decreases |session.replies|, 1
      ensures var run := Chain(HandledToken(old(session.token), session.granted, e), session.granted, old(session.replies));
              && outcome == run.settled
              && session.token == run.token
              && session.replies == run.rest
              && session.trace == old(session.trace) + HandlerEvents(e) + run.events
    {
      ghost var token, replies, trace := session.token, session.replies, session.trace;
      session.Log(e);
      if e.status == 401 {
        session.Logout();
        session.Authorize();
      }
      assert session.token == HandledToken(token, session.granted, e);
      assert session.replies == replies && session.trace == trace + HandlerEvents(e);
      var retry := new RequestConfig();
      outcome := Request(retry);
    }
  }

  /** The holder of the single client: `getInstance` creates it on the first
      call and returns that same client on every call. */
  class ClientHolder {
    const session: Session
    var instance: Client?
    ghost var created: nat

    /** At most one client was ever created, and it is the one held. */
    ghost predicate Valid()
      reads this
    {
      created <= 1 && (instance == null <==> created == 0)
    }

    constructor (session: Session)
      ensures Valid() && instance == null && created == 0 && this.session == session
    {
      this.session := session;
      instance := null;
      created := 0;
    }

    /** `getInstance`. */
    method GetInstance() returns (c: Client)
      requires Valid()
      modifies this
      ensures Valid() && instance == c && created == 1
      ensures old(instance) != null ==> c == old(instance)
      ensures old(instance) == null ==> fresh(c) && c.session == session
    {
      if instance == null {
        instance := new Client(session);
        created := created + 1;
      }
      c := instance;
    }
  }

  /** Two calls of `getInstance` return the same client, and only one was created. */
  method GetInstanceTwice(holder: ClientHolder) returns (a: Client, b: Client)
    requires holder.Valid()
    modifies holder
    ensures a == b && holder.created == 1 && holder.instance == a
  {
    a := holder.GetInstance();
    b := holder.GetInstance();
  }
}
