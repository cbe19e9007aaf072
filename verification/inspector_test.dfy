/**
 * The scenarios of inspector_test.go, run against the fake device: each test builds the client
 * with NewWithClient("", fake) on a fresh fake from the package's own copy, and calls the client.
 */
module InspectorTests {
  import opened Results
  import opened GoText
  import opened Urls
  import opened Inspector
  import opened FakeDevice

  /** The client the tests build: NewWithClient("", fake), whose base URL is "/koreader/". */
  function TestClient(): (c: HTTPInspectorClient)
    ensures c.baseURL == "/koreader/" && NewWithClient("") == (c, None)
  {
    assert TrimLeadingSlashes("/koreader/") == "koreader/";
    NewWithClient("").0
  }

  /** The path on the test server that a client path reaches. */
  function TestRoute(path: string): string
  {
    "/koreader/" + TrimLeadingSlashes(path)
  }

  lemma TrimOneLeadingSlash(q: string)
    requires q == [] || q[0] != '/'
    ensures TrimLeadingSlashes("/" + q) == q
  {
    assert ("/" + q)[1..] == q;
  }

  lemma KoreaderTrimmed()
    ensures TrimTrailingSlashes("/koreader/") == "/koreader"
  {
    assert "/koreader/"[..9] == "/koreader";
  }

  /** The server sees a URL rooted at "/" as it is. */
  lemma ServerPathOfRooted(q: string)
    requires q == [] || q[0] != '/'
    ensures ServerPath("/" + q) == "/" + q
  {
    TrimOneLeadingSlash(q);
    assert TrimTrailingSlashes("") == [];
  }

  /** What the test client joins reaches the server under "/koreader/". */
  lemma TestClientJoinIsRooted(path: string)
    ensures Join("/koreader/", path) == "/" + ("koreader/" + TrimLeadingSlashes(path))
  {
    KoreaderTrimmed();
    var tail := TrimLeadingSlashes(path);
    assert "/koreader" + "/" + tail == "/" + ("koreader/" + tail);
  }

  /** Every request of the test client reaches the server under "/koreader/". */
  lemma TestClientReaches(path: string)
    ensures JoinPath(TestClient().baseURL, path) == Success(Join("/koreader/", path))
    ensures ServerPath(Join("/koreader/", path)) == TestRoute(path)
  {
    KoreaderHasNoControlChar();
    TestClientServerPath(path);
  }

  lemma TestClientServerPath(path: string)
    ensures ServerPath(Join("/koreader/", path)) == TestRoute(path)
  {
    TestClientJoinIsRooted(path);
    var tail := TrimLeadingSlashes(path);
    ServerPathOfRooted("koreader/" + tail);
    KoreaderSlash(tail);
  }

  lemma KoreaderSlash(q: string)
    ensures "/" + ("koreader/" + q) == "/koreader/" + q
  {
  }

  /** A client path rooted at "/" reaches the route of the same tail under "/koreader/". */
  lemma RouteOf(p: string, q: string)
    requires p == "/" + q && (q == [] || q[0] != '/')
    ensures TestRoute(p) == "/koreader/" + q
  {
    TrimOneLeadingSlash(q);
  }

  /** A relative client path reaches the route of the same path under "/koreader/". */
  lemma RouteOfRelative(p: string)
    requires p == [] || p[0] != '/'
    ensures TestRoute(p) == "/koreader/" + p
  {
  }

  // Each route below whose client path starts with a slash is reached in three small steps: the path splits at that slash,
  // "/koreader/" joined to the rest is the fake's route, and RouteOf puts the two together. They are
  // separate lemmas only so that no single proof unfolds the string literals of both sides at once.

  lemma VersionPathSplits() ensures VersionPath == "/" + "globals/_VERSION" { }
  lemma VersionRouteSplits() ensures "/koreader/" + "globals/_VERSION" == VersionRoute { }

  lemma VersionRouteReached() ensures TestRoute(VersionPath) == VersionRoute
  {
    VersionPathSplits();
    VersionRouteSplits();
    RouteOf(VersionPath, "globals/_VERSION");
  }

  lemma StartPathSplits() ensures StartPath == "/" + "ui/SSH/start/" { }
  lemma StartRouteSplits() ensures "/koreader/" + "ui/SSH/start/" == StartRoute { }

  lemma StartRouteReached() ensures TestRoute(StartPath) == StartRoute
  {
    StartPathSplits();
    StartRouteSplits();
    RouteOf(StartPath, "ui/SSH/start/");
  }

  lemma StopPathSplits() ensures StopPath == "/" + "ui/SSH/stop/" { }
  lemma StopRouteSplits() ensures "/koreader/" + "ui/SSH/stop/" == StopRoute { }

  lemma StopRouteReached() ensures TestRoute(StopPath) == StopRoute
  {
    StopPathSplits();
    StopRouteSplits();
    RouteOf(StopPath, "ui/SSH/stop/");
  }

  lemma IsRunningPathSplits() ensures IsRunningPath == "/" + "ui/SSH/isRunning/" { }
  lemma IsRunningRouteSplits() ensures "/koreader/" + "ui/SSH/isRunning/" == IsRunningRoute { }

  lemma IsRunningRouteReached() ensures TestRoute(IsRunningPath) == IsRunningRoute
  {
    IsRunningPathSplits();
    IsRunningRouteSplits();
    RouteOf(IsRunningPath, "ui/SSH/isRunning/");
  }

  lemma FullRefreshPathSplits() ensures FullRefreshPath == "/" + "event/FullRefresh" { }
  lemma FullRefreshRouteSplits() ensures "/koreader/" + "event/FullRefresh" == FullRefreshRoute { }

  lemma FullRefreshRouteReached() ensures TestRoute(FullRefreshPath) == FullRefreshRoute
  {
    FullRefreshPathSplits();
    FullRefreshRouteSplits();
    RouteOf(FullRefreshPath, "event/FullRefresh");
  }

  lemma RestartPathSplits() ensures RestartPath == "/" + "UIManager/restartKOReader/" { }
  lemma RestartRouteSplits() ensures "/koreader/" + "UIManager/restartKOReader/" == RestartRoute { }

  lemma RestartRouteReached() ensures TestRoute(RestartPath) == RestartRoute
  {
    RestartPathSplits();
    RestartRouteSplits();
    RouteOf(RestartPath, "UIManager/restartKOReader/");
  }

  lemma PortRouteReached() ensures TestRoute(PortPath) == PortRoute
  {
    assert "/koreader/" + PortPath == PortRoute;
    RouteOfRelative(PortPath);
  }

  /** A client whose every request joins, and reaches the test server under "/koreader/". */
  ghost predicate ReachesKoreader(c: HTTPInspectorClient)
  {
    forall path: string :: JoinPath(c.baseURL, path).Success? && ServerPath(JoinPath(c.baseURL, path).value) == TestRoute(path)
  }

  lemma TestClientReachesKoreader()
    ensures ReachesKoreader(TestClient())
  {
    forall path: string
      ensures JoinPath(TestClient().baseURL, path).Success?
      ensures ServerPath(JoinPath(TestClient().baseURL, path).value) == TestRoute(path)
    {
      TestClientReaches(path);
    }
  }

  /**
   * The first call of a trace such a client runs against a fake: it gets the fake's answer with
   * no error (the status is not looked at), and the rest runs from the state it left.
   */
  lemma FirstCallOnFake(c: HTTPInspectorClient, h: Handler, st: FakeState, calls: seq<Call>, s: FakeState)
    requires ReachesKoreader(c)
    requires Performs(c, FakeTransport(h), st, calls, s) && calls != []
    ensures var path := TestRoute(calls[0].path);
      var routed := Route(h, st.sshRunning, path);
      && calls[0].body == Respond(routed).1 && calls[0].err == None
      && Performs(c, FakeTransport(h), FakeState(routed.sshRunning, st.requests + [path]), calls[1..], s)
  {
    assert JoinPath(c.baseURL, calls[0].path).Success?;
    PerformsFirstCall(c, FakeTransport(h), st, calls, s);
  }

  /** The status request on a fake reports the fake's SSH state and changes nothing but the log. */
  lemma IsRunningOnFake(c: HTTPInspectorClient, h: Handler, st: FakeState, calls: seq<Call>, s: FakeState)
    requires ReachesKoreader(c)
    requires Performs(c, FakeTransport(h), st, calls, s) && calls != []
    requires calls[0].path == IsRunningPath
    ensures IsRunningAnswer(calls[0].body, calls[0].err) == Returned(st.sshRunning, None)
    ensures Performs(c, FakeTransport(h), FakeState(st.sshRunning, st.requests + [IsRunningRoute]), calls[1..], s)
  {
    FirstCallOnFake(c, h, st, calls, s);
    IsRunningRouteReached();
    IsRunningRouteReportsState(h, st.sshRunning);
  }

  /** The start request on a fake succeeds and sets the SSH state. */
  lemma StartOnFake(c: HTTPInspectorClient, h: Handler, st: FakeState, calls: seq<Call>, s: FakeState)
    requires ReachesKoreader(c)
    requires Performs(c, FakeTransport(h), st, calls, s) && calls != []
    requires calls[0].path == StartPath
    ensures calls[0].err == None
    ensures Performs(c, FakeTransport(h), FakeState(true, st.requests + [StartRoute]), calls[1..], s)
  {
    FirstCallOnFake(c, h, st, calls, s);
    StartRouteReached();
  }

  /** The stop request on a fake succeeds and clears the SSH state. */
  lemma StopOnFake(c: HTTPInspectorClient, h: Handler, st: FakeState, calls: seq<Call>, s: FakeState)
    requires ReachesKoreader(c)
    requires Performs(c, FakeTransport(h), st, calls, s) && calls != []
    requires calls[0].path == StopPath
    ensures calls[0].err == None
    ensures Performs(c, FakeTransport(h), FakeState(false, st.requests + [StopRoute]), calls[1..], s)
  {
    FirstCallOnFake(c, h, st, calls, s);
    StopRouteReached();
  }

  /** The port request on a fake reads 2222. */
  lemma PortOnFake(c: HTTPInspectorClient, h: Handler, st: FakeState, calls: seq<Call>, s: FakeState)
    requires ReachesKoreader(c)
    requires Performs(c, FakeTransport(h), st, calls, s) && calls != []
    requires calls[0].path == PortPath
    ensures PortAnswer(calls[0].body, calls[0].err) == Returned(2222, None)
    ensures Performs(c, FakeTransport(h), FakeState(st.sshRunning, st.requests + [PortRoute]), calls[1..], s)
  {
    FirstCallOnFake(c, h, st, calls, s);
    PortRouteReached();
    PortAnswerReadsDecimal(2222);
    PortInDecimal();
  }

  lemma PortInDecimal() ensures FormatInt(2222) == "2222"
  {
  }

  /** The refresh request on the package's fake succeeds and changes nothing but the log. */
  lemma FullRefreshOnFake(c: HTTPInspectorClient, st: FakeState, calls: seq<Call>, s: FakeState)
    requires ReachesKoreader(c)
    requires Performs(c, FakeTransport(PackageTestFake), st, calls, s) && |calls| == 1
    requires calls[0].path == FullRefreshPath
    ensures calls[0].err == None
    ensures s == FakeState(st.sshRunning, st.requests + [FullRefreshRoute])
  {
    FirstCallOnFake(c, PackageTestFake, st, calls, s);
    FullRefreshRouteReached();
    FullRefreshRouted(st.sshRunning);
    assert calls[1..] == [];
  }

  lemma FullRefreshRouted(running: bool)
    ensures Route(PackageTestFake, running, FullRefreshRoute) == Routed(running, "", None)
  {
    assert FullRefreshRoute[10] != IsRunningRoute[10];
  }

  /** The restart request: the package's fake has no such route, so it answers 404, unread. */
  lemma RestartOnFake(c: HTTPInspectorClient, st: FakeState, calls: seq<Call>, s: FakeState)
    requires ReachesKoreader(c)
    requires Performs(c, FakeTransport(PackageTestFake), st, calls, s) && |calls| == 1
    requires calls[0].path == RestartPath
    ensures calls[0].err == None && calls[0].body == NotFoundPage
    ensures s == FakeState(st.sshRunning, st.requests + [RestartRoute])
  {
    FirstCallOnFake(c, PackageTestFake, st, calls, s);
    RestartRouteReached();
    assert calls[1..] == [];
  }

  /** Test_GetVersion: the fake answers "Lua 5.1", and GetLuaVersion returns it with no error. */
  method TestGetVersion() returns (version: string, err: Option<Error>)
    ensures version == "Lua 5.1" && err == None
  {
    var s, calls;
    s, calls, version, err := GetLuaVersion(TestClient(), FakeTransport(PackageTestFake), Fresh());
    TestClientReachesKoreader();
    FirstCallOnFake(TestClient(), PackageTestFake, Fresh(), calls, s);
    VersionRouteReached();
  }

  /**
   * Test_Restart: the fake has no restart route and answers 404, yet RestartKOReader reports no
   * error, and the restart path is the one request the fake received.
   */
  method TestRestart() returns (err: Option<Error>, device: FakeState)
    ensures err == None && device == FakeState(false, [RestartRoute])
  {
    var calls;
    device, calls, err := RestartKOReader(TestClient(), FakeTransport(PackageTestFake), Fresh());
    TestClientReachesKoreader();
    RestartOnFake(TestClient(), Fresh(), calls, device);
  }

  /** Test_FullRefresh: the package's fake answers the refresh event, and FullRefresh reports no error. */
  method TestFullRefresh() returns (err: Option<Error>, device: FakeState)
    ensures err == None && device == FakeState(false, [FullRefreshRoute])
  {
    var calls;
    device, calls, err := FullRefresh(TestClient(), FakeTransport(PackageTestFake), Fresh());
    TestClientReachesKoreader();
    FullRefreshOnFake(TestClient(), Fresh(), calls, device);
  }

  /** A trace that is only the status request, on a fake. */
  lemma OnlyIsRunningOnFake(c: HTTPInspectorClient, h: Handler, st: FakeState, calls: seq<Call>, s: FakeState)
    requires ReachesKoreader(c)
    requires Performs(c, FakeTransport(h), st, calls, s)
    requires |calls| == 1 && calls[0].path == IsRunningPath
    ensures IsRunningAnswer(calls[0].body, calls[0].err) == Returned(st.sshRunning, None)
    ensures s == FakeState(st.sshRunning, st.requests + [IsRunningRoute])
  {
    IsRunningOnFake(c, h, st, calls, s);
    assert calls[1..] == [];
  }

  /** A trace that is only the port request, on a fake. */
  lemma OnlyPortOnFake(c: HTTPInspectorClient, h: Handler, st: FakeState, calls: seq<Call>, s: FakeState)
    requires ReachesKoreader(c)
    requires Performs(c, FakeTransport(h), st, calls, s)
    requires |calls| == 1 && calls[0].path == PortPath
    ensures PortAnswer(calls[0].body, calls[0].err) == Returned(2222, None)
    ensures s == FakeState(st.sshRunning, st.requests + [PortRoute])
  {
    PortOnFake(c, h, st, calls, s);
    assert calls[1..] == [];
  }

  /** SSHIsRunning against a fake: the fake's state comes back, and the request is logged. */
  method StatusOnFake(c: HTTPInspectorClient, h: Handler, st: FakeState) returns (running: Outcome<bool>, device: FakeState)
    requires ReachesKoreader(c)
    ensures running == Returned(st.sshRunning, None)
    ensures device == FakeState(st.sshRunning, st.requests + [IsRunningRoute])
  {
    var calls;
    device, calls, running := SSHIsRunning(c, FakeTransport(h), st);
    assert Paths(calls)[0] == calls[0].path;
    OnlyIsRunningOnFake(c, h, st, calls, device);
  }

  /** The status check and port request that follow a start, on a fake whose service runs. */
  lemma StatusThenPortOnFake(c: HTTPInspectorClient, h: Handler, st: FakeState, calls: seq<Call>, s: FakeState)
    requires ReachesKoreader(c)
    requires Performs(c, FakeTransport(h), st, calls, s) && st.sshRunning
    requires 1 <= |calls| <= 2 && calls[0].path == IsRunningPath
    requires |calls| == 2 ==> calls[1].path == PortPath
    ensures IsRunningAnswer(calls[0].body, calls[0].err) == Returned(true, None)
    ensures |calls| == 2 ==> PortAnswer(calls[1].body, calls[1].err) == Returned(2222, None)
    ensures |calls| == 2 ==> s == FakeState(true, st.requests + [IsRunningRoute, PortRoute])
  {
    IsRunningOnFake(c, h, st, calls, s);
    if |calls| == 2 {
      var st1 := FakeState(true, st.requests + [IsRunningRoute]);
      assert calls[1..][0] == calls[1];
      OnlyPortOnFake(c, h, st1, calls[1..], s);
      assert st1.requests + [PortRoute] == st.requests + [IsRunningRoute, PortRoute];
    }
  }

  /** StatusThenPortOnFake, read at the second and third calls of a trace. */
  lemma AfterStartOnFake(c: HTTPInspectorClient, h: Handler, st1: FakeState, calls: seq<Call>, s: FakeState)
    requires ReachesKoreader(c) && st1.sshRunning
    requires 2 <= |calls| <= 3 && Performs(c, FakeTransport(h), st1, calls[1..], s)
    requires calls[1].path == IsRunningPath
    requires |calls| == 3 ==> calls[2].path == PortPath
    ensures IsRunningAnswer(calls[1].body, calls[1].err) == Returned(true, None)
    ensures |calls| == 3 ==> PortAnswer(calls[2].body, calls[2].err) == Returned(2222, None)
    ensures |calls| == 3 ==> s == FakeState(true, st1.requests + [IsRunningRoute, PortRoute])
  {
    var rest := calls[1..];
    assert rest[0] == calls[1];
    assert |calls| == 3 ==> rest[1] == calls[2];
    StatusThenPortOnFake(c, h, st1, rest, s);
  }

  /** The trace of SSHStart against a fake: each step answers as the fake's routes say. */
  lemma StartTraceOnFake(c: HTTPInspectorClient, h: Handler, st: FakeState, calls: seq<Call>, s: FakeState)
    requires ReachesKoreader(c)
    requires Performs(c, FakeTransport(h), st, calls, s)
    requires 1 <= |calls| <= 3 && calls[0].path == StartPath
    requires |calls| >= 2 ==> calls[1].path == IsRunningPath
    requires |calls| == 3 ==> calls[2].path == PortPath
    ensures calls[0].err == None
    ensures |calls| >= 2 ==> IsRunningAnswer(calls[1].body, calls[1].err) == Returned(true, None)
    ensures |calls| == 3 ==> PortAnswer(calls[2].body, calls[2].err) == Returned(2222, None)
    ensures |calls| == 3 ==> s == FakeState(true, st.requests + [StartRoute, IsRunningRoute, PortRoute])
  {
    assert (st.requests + [StartRoute]) + [IsRunningRoute, PortRoute] == st.requests + [StartRoute, IsRunningRoute, PortRoute];
    StartOnFake(c, h, st, calls, s);
    if |calls| >= 2 {
      AfterStartOnFake(c, h, FakeState(true, st.requests + [StartRoute]), calls, s);
    }
  }

  /** SSHStart against a fake: start, status and port, which is 2222. */
  method StartOnFakeDevice(c: HTTPInspectorClient, h: Handler, st: FakeState) returns (port: Outcome<Int64>, device: FakeState)
    requires ReachesKoreader(c)
    ensures port == Returned(2222, None)
    ensures device == FakeState(true, st.requests + [StartRoute, IsRunningRoute, PortRoute])
  {
    var calls;
    device, calls, port := SSHStart(c, FakeTransport(h), st);
    assert Paths(calls)[0] == calls[0].path;
    assert |calls| >= 2 ==> Paths(calls)[1] == calls[1].path;
    assert |calls| == 3 ==> Paths(calls)[2] == calls[2].path;
    StartTraceOnFake(c, h, st, calls, device);
  }

  /** The trace of SSHStop against a fake: the stop succeeds and the status reads stopped. */
  lemma StopTraceOnFake(c: HTTPInspectorClient, h: Handler, st: FakeState, calls: seq<Call>, s: FakeState)
    requires ReachesKoreader(c)
    requires Performs(c, FakeTransport(h), st, calls, s)
    requires |calls| == 2 && calls[0].path == StopPath && calls[1].path == IsRunningPath
    ensures calls[0].err == None
    ensures IsRunningAnswer(calls[1].body, calls[1].err) == Returned(false, None)
    ensures s == FakeState(false, st.requests + [StopRoute, IsRunningRoute])
  {
    StopOnFake(c, h, st, calls, s);
    var st1 := FakeState(false, st.requests + [StopRoute]);
    assert calls[1..][0] == calls[1];
    OnlyIsRunningOnFake(c, h, st1, calls[1..], s);
    assert st1.requests + [IsRunningRoute] == st.requests + [StopRoute, IsRunningRoute];
  }

  /** SSHStop against a fake: stop and status, with no error. */
  method StopOnFakeDevice(c: HTTPInspectorClient, h: Handler, st: FakeState) returns (stopped: Outcome<()>, device: FakeState)
    requires ReachesKoreader(c)
    ensures stopped == Returned((), None)
    ensures device == FakeState(false, st.requests + [StopRoute, IsRunningRoute])
  {
    var calls;
    device, calls, stopped := SSHStop(c, FakeTransport(h), st);
    assert Paths(calls)[0] == calls[0].path;
    StopOnFake(c, h, st, calls, device);
    assert Paths(calls)[1] == calls[1].path;
    StopTraceOnFake(c, h, st, calls, device);
  }

  /**
   * Test_SSH: on a fresh fake the service is stopped; SSHStart then starts it and returns port
   * 2222; the deferred SSHStop stops it again with no error. The fake logs the six requests.
   */
  method TestSSH() returns (running: Outcome<bool>, port: Outcome<Int64>, stopped: Outcome<()>, device: FakeState)
    ensures running == Returned(false, None)
    ensures port == Returned(2222, None)
    ensures stopped == Returned((), None)
    ensures device == FakeState(false, [IsRunningRoute, StartRoute, IsRunningRoute, PortRoute, StopRoute, IsRunningRoute])
  {
    var c := TestClient();
    TestClientReachesKoreader();
    running, device := StatusOnFake(c, PackageTestFake, Fresh());
    port, device := StartOnFakeDevice(c, PackageTestFake, device);
    stopped, device := StopOnFakeDevice(c, PackageTestFake, device);
  }
}
