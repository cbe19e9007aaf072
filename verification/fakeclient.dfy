/**
 * Model of the fake device in testutils/fakeClient.go and of its copy in inspector_test.go: an
 * HTTP test server with a one-bit SSH state, an append-only log of request paths, and a switch
 * on the path. `Route`, `Respond` and `Serve` state what it does; the class `FakeHTTPClient`
 * does it by updating its fields, and is proved to agree with them.
 */
module FakeDevice {
  import opened Results
  import opened GoText
  import opened Urls
  import opened Inspector

  /** The two fakes: testutils/fakeClient.go, and the copy in inspector_test.go with two more cases. */
  datatype Handler = SharedFake | PackageTestFake

  /** The errors handleRequest can return. */
  datatype HandlerError = ErrNotFound | Failed(message: string)

  /** What handleRequest does with one path: the SSH state after it, the body and the error. */
  datatype Routed = Routed(sshRunning: bool, body: string, err: Option<HandlerError>)

  /** The fake's state: the SSH flag and the paths of the requests received, oldest first. */
  datatype FakeState = FakeState(sshRunning: bool, requests: seq<string>)

  const VersionRoute := "/koreader/globals/_VERSION"
  const IsRunningRoute := "/koreader/ui/SSH/isRunning/"
  const StartRoute := "/koreader/ui/SSH/start/"
  const PortRoute := "/koreader/ui/SSH/SSH_port"
  const StopRoute := "/koreader/ui/SSH/stop/"
  const ToggleNightModeRoute := "/koreader/event/ToggleNightMode"
  const FullRefreshRoute := "/koreader/event/FullRefresh"
  const RestartRoute := "/koreader/UIManager/restartKOReader/"

  /** The body http.NotFound writes. */
  const NotFoundPage := "404 page not found\n"

  /** A new fake: SSH stopped, nothing received. */
  function Fresh(): FakeState
  {
    FakeState(false, [])
  }

  /** handleRequest: the switch on the request path. */
  function Route(h: Handler, running: bool, path: string): Routed
  {
    if path == VersionRoute then Routed(running, "Lua 5.1", None)
    else if path == IsRunningRoute then Routed(running, "[" + FormatBool(running) + "]", None)
    else if path == StartRoute then Routed(true, "", None)
    else if path == PortRoute then Routed(running, "2222", None)
    else if path == StopRoute then Routed(false, "", None)
    else if h == PackageTestFake && path == FullRefreshRoute then Routed(running, "", None)
    else Routed(running, "", Some(ErrNotFound))
  }

  /** The handler's answer: 404 for ErrNotFound, 500 with the message for any other error, else the body. */
  function Respond(r: Routed): (nat, string)
  {
    match r.err
    case None => (200, r.body)
    case Some(ErrNotFound) => (404, NotFoundPage)
    case Some(Failed(message)) => (500, message + "\n")
  }

  /** The path the test server sees for a URL the client requests; the server's own URL has no path. */
  function ServerPath(url: string): string
  {
    Join("", url)
  }

  /** FakeHTTPClient.Get from end to end: the handler logs the path, routes it and answers. */
  function Serve(h: Handler, st: FakeState, url: string): (FakeState, Reply)
  {
    var path := ServerPath(url);
    var routed := Route(h, st.sshRunning, path);
    var answer := Respond(routed);
    (FakeState(routed.sshRunning, st.requests + [path]), Answered(answer.0, answer.1, None))
  }

  /** The fake as the client's HTTPClient. */
  function FakeTransport(h: Handler): Transport<FakeState>
  {
    (st, url) => Serve(h, st, url)
  }

  /** The server paths a trace of calls reaches, in order, for a client with base URL `base`. */
  function SentPaths(base: string, calls: seq<Call>): (r: seq<string>)
    ensures |r| == |calls|
  {
    if calls == [] then [] else [ServerPath(Join(base, calls[0].path))] + SentPaths(base, calls[1..])
  }

  // ---------------------------------------------------------------- properties of the fake

  /** Only the start and stop paths change the SSH state: start sets it, stop clears it. */
  lemma RouteChangesOnlyOnStartAndStop(h: Handler, running: bool, path: string)
    ensures Route(h, running, path).sshRunning ==
      if path == StartRoute then true else if path == StopRoute then false else running
  {
  }

  /** The status body is the JSON array holding the current state, and the client reads that state back. */
  lemma IsRunningRouteReportsState(h: Handler, running: bool)
    ensures Route(h, running, IsRunningRoute).body == EncodeBoolSlice([running])
    ensures IsRunningAnswer(Route(h, running, IsRunningRoute).body, None) == Returned(running, None)
  {
    assert JoinBools([running]) == FormatBool(running);
    IsRunningReadsFirstElement([running], None);
  }

  /** The handler answers 200 or 404, never 500: handleRequest returns no error but ErrNotFound. */
  lemma HandlerNeverAnswers500(h: Handler, running: bool, path: string)
    ensures Respond(Route(h, running, path)).0 in {200, 404}
    ensures Respond(Route(h, running, path)).0 == 404 <==> Route(h, running, path).err.Some?
  {
  }

  /**
   * The copy in inspector_test.go differs from testutils only on FullRefresh, which it answers
   * with an empty body; its ToggleNightMode case is empty, so that path is still not found.
   */
  lemma PackageTestFakeExtendsShared(running: bool, path: string)
    ensures Route(PackageTestFake, running, path) ==
      if path == FullRefreshRoute then Routed(running, "", None) else Route(SharedFake, running, path)
    ensures Route(PackageTestFake, running, ToggleNightModeRoute).err == Some(ErrNotFound)
    ensures Route(SharedFake, running, FullRefreshRoute).err == Some(ErrNotFound)
  {
  }

  /** Each request adds its path to the end of the log, and nothing else. */
  lemma ServeLogsRequest(h: Handler, st: FakeState, url: string)
    ensures Serve(h, st, url).0.requests == st.requests + [ServerPath(url)]
  {
  }

  /** A transport that logs, as the fake does: each request is appended to the log. */
  ghost predicate LogsRequests(t: Transport<FakeState>)
  {
    forall st: FakeState, url: string :: t(st, url).0.requests == st.requests + [ServerPath(url)]
  }

  lemma {:induction false} LoggedCalls(t: Transport<FakeState>, c: HTTPInspectorClient, s0: FakeState, calls: seq<Call>, s: FakeState)
    requires LogsRequests(t)
    requires Performs(c, t, s0, calls, s)
    requires !HasControlChar(c.baseURL)
    ensures s.requests == s0.requests + SentPaths(c.baseURL, calls)
    decreases |calls|
  {
    if calls != [] {
      var url := Join(c.baseURL, calls[0].path);
      PerformsFirstCall(c, t, s0, calls, s);
      LoggedCalls(t, c, t(s0, url).0, calls[1..], s);
      var first, rest := ServerPath(url), SentPaths(c.baseURL, calls[1..]);
      assert s.requests == (s0.requests + [first]) + rest;
      assert (s0.requests + [first]) + rest == s0.requests + ([first] + rest);
    }
  }

  /**
   * Over any run of the client against the fake, the log grows by exactly one path per call, in
   * call order, each being the URL the call joined as the server sees it.
   */
  lemma FakeLogsEveryCall(h: Handler, c: HTTPInspectorClient, s0: FakeState, calls: seq<Call>, s: FakeState)
    requires Performs(c, FakeTransport(h), s0, calls, s)
    requires !HasControlChar(c.baseURL)
    ensures s.requests == s0.requests + SentPaths(c.baseURL, calls)
  {
    forall st: FakeState, url: string
      ensures FakeTransport(h)(st, url).0.requests == st.requests + [ServerPath(url)]
    {
      ServeLogsRequest(h, st, url);
    }
    LoggedCalls(FakeTransport(h), c, s0, calls, s);
  }

  // ---------------------------------------------------------------- the fake as an object

  /** FakeHTTPClient: the fields the test server's handler updates in place. */
  class FakeHTTPClient {
    const handler: Handler
    var sshRunning: bool
    var requests: seq<string>

    /** NewFakeHTTPClient: SSH stopped and an empty log. */
    constructor (handler: Handler)
      ensures this.handler == handler && State() == Fresh()
    {
      this.handler := handler;
      sshRunning := false;
      requests := [];
    }

    function State(): FakeState
      reads this
    {
      FakeState(sshRunning, requests)
    }

    /** handleRequest: switch on the path, flipping the SSH flag for start and stop. */
    method HandleRequest(path: string) returns (body: string, err: Option<HandlerError>)
      modifies this`sshRunning
      ensures Routed(sshRunning, body, err) == Route(handler, old(sshRunning), path)
    {
      body, err := "", None;
      if path == VersionRoute {
        body := "Lua 5.1";
      } else if path == IsRunningRoute {
        body := "[" + FormatBool(sshRunning) + "]";
      } else if path == StartRoute {
        sshRunning := true;
      } else if path == PortRoute {
        body := "2222";
      } else if path == StopRoute {
        sshRunning := false;
      } else if handler == PackageTestFake && path == ToggleNightModeRoute {
        // an empty case: the switch ends and the final return answers not found
        err := Some(ErrNotFound);
      } else if handler == PackageTestFake && path == FullRefreshRoute {
      } else {
        err := Some(ErrNotFound);
      }
    }

    /** The server's handler: log the request first, then route it and write the answer. */
    method ServeHTTP(path: string) returns (status: nat, body: string)
      modifies this
      ensures requests == old(requests) + [path]
      ensures sshRunning == Route(handler, old(sshRunning), path).sshRunning
      ensures (status, body) == Respond(Route(handler, old(sshRunning), path))
    {
      requests := requests + [path];
      var res, err := HandleRequest(path);
      if err.Some? {
        match err.value {
          case ErrNotFound => return 404, NotFoundPage;
          case Failed(message) => return 500, message + "\n";
        }
      }
      return 200, res;
    }

    /** Get, as the client's HTTPClient: the request goes through the test server and back. */
    method Get(url: string) returns (reply: Reply)
      modifies this
      ensures (State(), reply) == FakeTransport(handler)(old(State()), url)
    {
      var status, body := ServeHTTP(ServerPath(url));
      reply := Answered(status, body, None);
    }
  }
}
