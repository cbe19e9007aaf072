/**
 * Model of inspector.go: the client of the e-reader's HTTP control surface. Every operation is a
 * sequence of GET requests under "<base URL>/koreader/". The HTTPClient the client is built with
 * is modelled as a `Transport`: one GET answered by whatever state `S` the remote side keeps.
 * Each operation takes that state, returns the state after its requests, the `Call`s it made (the
 * request trace) and its Go results.
 */
module Inspector {
  import opened Results
  import opened GoText
  import opened Urls
  import opened SliceMapping

  /** The errors the client's operations return. */
  datatype Error =
    | Url(urlError: UrlError)        // url.JoinPath could not parse the base URL
    | Transport(reason: string)      // the HTTPClient's Get failed
    | Read(reason: string)           // io.ReadAll stopped part-way through the body
    | ClientError(message: string)   // HTTPInspectorClientError
    | Num(numError: NumError)        // strconv.Atoi or strconv.ParseBool refused the body

  /** What one HTTPClient.Get yields once its body has been read. */
  datatype Reply =
    | Refused(reason: string)
    | Answered(status: nat, body: string, readFailure: Option<string>)

  /** One GET, as the remote side answers it: from its current state and the URL, its next state and the reply. */
  type Transport<!S> = (S, string) -> (S, Reply)

  /** One call of the client's Get: the path it was given and the bytes and error it returned. */
  datatype Call = Call(path: string, body: string, err: Option<Error>)

  /** The result of an operation that returns a value and an error, or that panics. */
  datatype Outcome<T> = Returned(value: T, err: Option<Error>) | Panicked

  /** HTTPInspectorClient; its HTTPClient is passed to each operation as a Transport, and its logger is left out. */
  datatype HTTPInspectorClient = HTTPInspectorClient(baseURL: string)

  const StartPath := "/ui/SSH/start/"
  const StopPath := "/ui/SSH/stop/"
  const IsRunningPath := "/ui/SSH/isRunning/"
  const PortPath := "ui/SSH/SSH_port"
  const AllowNoPasswordPath := "ui/SSH/allow_no_password"
  const ToggleNightModePath := "/event/ToggleNightMode"
  const FullRefreshPath := "/event/FullRefresh"
  const VersionPath := "/globals/_VERSION"
  const RestartPath := "/UIManager/restartKOReader/"

  const NotRunningAfterStart := "SSH is not running after calling /ui/ssh/start/"
  const RunningAfterStop := "SSH is running after calling /ui/ssh/stop/"

  /** The path SetNightMode requests. */
  function NightModePath(nightMode: bool): string
  {
    "/event/SetNightMode/" + FormatBool(nightMode)
  }

  /** The path TurnPageBy requests. */
  function TurnPagePath(amount: Int64): string
  {
    "/event/GotoViewRel/" + FormatInt(amount as int)
  }

  /** The path SSHSetAllowNoPassword requests. */
  function AllowNoPasswordSetPath(allow: bool): string
  {
    AllowNoPasswordPath + "?=" + FormatBool(allow)
  }

  /**
   * NewWithClient: the base URL with "/koreader/" joined under it. When the base URL does not
   * parse, the client is still built, with an empty base URL, beside the error.
   */
  function NewWithClient(baseURL: string): (r: (HTTPInspectorClient, Option<Error>))
    ensures r.1.None? <==> !HasControlChar(baseURL)
    ensures r.1.None? ==> r.0.baseURL == TrimTrailingSlashes(baseURL) + "/koreader/"
    ensures r.1.Some? ==> r.0.baseURL == []
  {
    match JoinPath(baseURL, "/koreader/")
    case Failure(e) => (HTTPInspectorClient(""), Some(Url(e)))
    case Success(uri) => (HTTPInspectorClient(uri), None)
  }

  /** The bytes and error Get returns for a reply; the HTTP status is never looked at. */
  function Received(reply: Reply): (string, Option<Error>)
  {
    match reply
    case Refused(reason) => ([], Some(Transport(reason)))
    case Answered(_, body, failure) => (body, if failure.Some? then Some(Read(failure.value)) else None)
  }

  function PathOf(call: Call): string { call.path }

  /** The paths of a request trace, in order. */
  function Paths(calls: seq<Call>): seq<string>
  {
    MapSeq(PathOf, calls)
  }

  /**
   * `calls` is what the client's Get returns, call after call, when the remote side starts in
   * state `s0` and answers through `t`, and `s` is the state it ends in. A path whose join fails
   * sends nothing.
   */
  ghost predicate Performs<S>(c: HTTPInspectorClient, t: Transport<S>, s0: S, calls: seq<Call>, s: S)
    decreases |calls|
  {
    if calls == [] then s == s0
    else
      match JoinPath(c.baseURL, calls[0].path)
      case Failure(e) =>
        calls[0].body == [] && calls[0].err == Some(Url(e)) && Performs(c, t, s0, calls[1..], s)
      case Success(url) =>
        (calls[0].body, calls[0].err) == Received(t(s0, url).1) && Performs(c, t, t(s0, url).0, calls[1..], s)
  }

  /** Running two request traces one after the other performs their concatenation. */
  lemma {:induction false} PerformsAppend<S>(c: HTTPInspectorClient, t: Transport<S>, s0: S, a: seq<Call>, s1: S, b: seq<Call>, s2: S)
    requires Performs(c, t, s0, a, s1) && Performs(c, t, s1, b, s2)
    ensures Performs(c, t, s0, a + b, s2)
    decreases |a|
  {
    if a != [] {
      assert (a + b)[0] == a[0] && (a + b)[1..] == a[1..] + b;
      match JoinPath(c.baseURL, a[0].path)
      case Failure(e) =>
        PerformsAppend(c, t, s0, a[1..], s1, b, s2);
      case Success(url) =>
        PerformsAppend(c, t, t(s0, url).0, a[1..], s1, b, s2);
    } else {
      assert a + b == b;
    }
  }

  /** The first call of a trace that reaches the remote side leaves the rest to run from the state it produced. */
  lemma PerformsFirstCall<S>(c: HTTPInspectorClient, t: Transport<S>, s0: S, calls: seq<Call>, s: S)
    requires Performs(c, t, s0, calls, s) && calls != []
    requires JoinPath(c.baseURL, calls[0].path).Success?
    ensures Performs(c, t, t(s0, JoinPath(c.baseURL, calls[0].path).value).0, calls[1..], s)
  {
  }

  /**
   * Get: join the path under the base URL and send one request. A join failure returns the
   * error and sends nothing; a transport failure returns no bytes and that error; otherwise the
   * body comes back with the read error, if any, whatever the HTTP status was.
   */
  method Get<S>(c: HTTPInspectorClient, t: Transport<S>, s0: S, path: string)
    returns (s: S, calls: seq<Call>, body: string, err: Option<Error>)
    ensures calls == [Call(path, body, err)] && Performs(c, t, s0, calls, s)
    ensures JoinPath(c.baseURL, path).Failure? ==>
      s == s0 && body == [] && err == Some(Url(JoinPath(c.baseURL, path).error))
    ensures JoinPath(c.baseURL, path).Success? ==>
      var url := JoinPath(c.baseURL, path).value;
      var reply := t(s0, url).1;
      && s == t(s0, url).0
      && (reply.Refused? ==> body == [] && err == Some(Transport(reply.reason)))
      && (reply.Answered? ==> body == reply.body && (err.Some? <==> reply.readFailure.Some?))
  {
    match JoinPath(c.baseURL, path) {
      case Failure(e) =>
        s, body, err := s0, [], Some(Url(e));
      case Success(url) =>
        var reply;
        s, reply := t(s0, url).0, t(s0, url).1;
        match reply {
          case Refused(reason) =>
            body, err := [], Some(Transport(reason));
          case Answered(_, b, failure) =>
            body := b;
            err := if failure.Some? then Some(Read(failure.value)) else None;
        }
    }
    calls := [Call(path, body, err)];
  }

  /** The body-parsing rule of SSHIsRunning. */
  function IsRunningAnswer(body: string, err: Option<Error>): Outcome<bool>
  {
    match ParseBoolSlice(body)
    case None => Returned(false, err)          // the unmarshal error is dropped for Get's own
    case Some(values) =>
      if values == [] then Panicked             // body[0] of an empty slice: index out of range
      else Returned(values[0], None)
  }

  /** The body-parsing rule of SSHGetPort. */
  function PortAnswer(body: string, err: Option<Error>): Outcome<Int64>
  {
    if err.Some? then Returned(0, err)
    else
      var n := Atoi(body);
      Returned(n.value, if n.err.Some? then Some(Num(n.err.value)) else None)
  }

  /** The body-parsing rule of SSHGetAllowNoPassword. */
  function AllowNoPasswordAnswer(body: string, err: Option<Error>): Outcome<bool>
  {
    if err.Some? then Returned(false, err)
    else
      var b := ParseBool(body);
      Returned(b.value, if b.err.Some? then Some(Num(b.err.value)) else None)
  }

  /** SSHIsRunning: one request for the status, read as a JSON array of booleans. */
  method SSHIsRunning<S>(c: HTTPInspectorClient, t: Transport<S>, s0: S)
    returns (s: S, calls: seq<Call>, running: Outcome<bool>)
    ensures Performs(c, t, s0, calls, s)
    ensures Paths(calls) == [IsRunningPath]
    ensures running == IsRunningAnswer(calls[0].body, calls[0].err)
  {
    var body, err;
    s, calls, body, err := Get(c, t, s0, IsRunningPath);
    running := IsRunningAnswer(body, err);
  }

  /** SSHGetPort: one request for the port, read as a decimal integer. */
  method SSHGetPort<S>(c: HTTPInspectorClient, t: Transport<S>, s0: S)
    returns (s: S, calls: seq<Call>, port: Outcome<Int64>)
    ensures Performs(c, t, s0, calls, s)
    ensures Paths(calls) == [PortPath]
    ensures port == PortAnswer(calls[0].body, calls[0].err)
  {
    var body, err;
    s, calls, body, err := Get(c, t, s0, PortPath);
    port := PortAnswer(body, err);
  }

  /**
   * SSHStart: request the start, check the status, then fetch the port. The trace is a prefix
   * of start, isRunning, SSH_port, and each early return says why the sequence stopped there.
   */
  method SSHStart<S>(c: HTTPInspectorClient, t: Transport<S>, s0: S)
    returns (s: S, calls: seq<Call>, port: Outcome<Int64>)
    ensures Performs(c, t, s0, calls, s)
    ensures 1 <= |calls| <= 3 && Paths(calls) == [StartPath, IsRunningPath, PortPath][..|calls|]
    ensures calls[0].err.Some? ==> |calls| == 1 && port == Returned(0, calls[0].err)
    ensures calls[0].err.None? ==> |calls| >= 2
    ensures calls[0].err.None? ==>
      match IsRunningAnswer(calls[1].body, calls[1].err)
      case Panicked => |calls| == 2 && port == Panicked
      case Returned(running, err) =>
        if err.Some? then |calls| == 2 && port == Returned(0, err)
        else if !running then |calls| == 2 && port == Returned(0, Some(ClientError(NotRunningAfterStart)))
        else |calls| == 3 && port == PortAnswer(calls[2].body, calls[2].err)
  {
    var body, err;
    s, calls, body, err := Get(c, t, s0, StartPath);
    if err.Some? {
      return s, calls, Returned(0, err);
    }
    var s1, calls1, running := SSHIsRunning(c, t, s);
    PerformsAppend(c, t, s0, calls, s, calls1, s1);
    MapSeqAppend(PathOf, calls, calls1);
    s, calls := s1, calls + calls1;
    match running
    case Panicked =>
      return s, calls, Panicked;
    case Returned(isRunning, err1) =>
      if err1.Some? {
        return s, calls, Returned(0, err1);
      }
      if !isRunning {
        return s, calls, Returned(0, Some(ClientError(NotRunningAfterStart)));
      }
      var s2, calls2;
      s2, calls2, port := SSHGetPort(c, t, s);
      PerformsAppend(c, t, s0, calls, s, calls2, s2);
      MapSeqAppend(PathOf, calls, calls2);
      s, calls := s2, calls + calls2;
  }

  /**
   * SSHStop: request the stop, then check the status. The trace is a prefix of stop,
   * isRunning; the error is the first failure, or a client error if the service still runs.
   */
  method SSHStop<S>(c: HTTPInspectorClient, t: Transport<S>, s0: S)
    returns (s: S, calls: seq<Call>, result: Outcome<()>)
    ensures Performs(c, t, s0, calls, s)
    ensures 1 <= |calls| <= 2 && Paths(calls) == [StopPath, IsRunningPath][..|calls|]
    ensures calls[0].err.Some? ==> |calls| == 1 && result == Returned((), calls[0].err)
    ensures calls[0].err.None? ==> |calls| == 2
    ensures calls[0].err.None? ==>
      match IsRunningAnswer(calls[1].body, calls[1].err)
      case Panicked => result == Panicked
      case Returned(running, err) =>
        if err.Some? then result == Returned((), err)
        else if running then result == Returned((), Some(ClientError(RunningAfterStop)))
        else result == Returned((), None)
  {
    var body, err;
    s, calls, body, err := Get(c, t, s0, StopPath);
    if err.Some? {
      return s, calls, Returned((), err);
    }
    var s1, calls1, running := SSHIsRunning(c, t, s);
    PerformsAppend(c, t, s0, calls, s, calls1, s1);
    MapSeqAppend(PathOf, calls, calls1);
    s, calls := s1, calls + calls1;
    match running
    case Panicked =>
      result := Panicked;
    case Returned(isRunning, err1) =>
      if err1.Some? {
        result := Returned((), err1);
      } else if isRunning {
        result := Returned((), Some(ClientError(RunningAfterStop)));
      } else {
        result := Returned((), None);
      }
  }

  /** SSHGetAllowNoPassword: one request, read with strconv.ParseBool. */
  method SSHGetAllowNoPassword<S>(c: HTTPInspectorClient, t: Transport<S>, s0: S)
    returns (s: S, calls: seq<Call>, allow: Outcome<bool>)
    ensures Performs(c, t, s0, calls, s)
    ensures Paths(calls) == [AllowNoPasswordPath]
    ensures allow == AllowNoPasswordAnswer(calls[0].body, calls[0].err)
  {
    var body, err;
    s, calls, body, err := Get(c, t, s0, AllowNoPasswordPath);
    allow := AllowNoPasswordAnswer(body, err);
  }

  /** SSHSetAllowNoPassword: one request whose path carries the setting; only Get's error comes back. */
  method SSHSetAllowNoPassword<S>(c: HTTPInspectorClient, t: Transport<S>, s0: S, allow: bool)
    returns (s: S, calls: seq<Call>, err: Option<Error>)
    ensures Performs(c, t, s0, calls, s)
    ensures Paths(calls) == [AllowNoPasswordSetPath(allow)] && err == calls[0].err
  {
    var body;
    s, calls, body, err := Get(c, t, s0, AllowNoPasswordSetPath(allow));
  }

  /** ToggleNightMode: one request; only Get's error comes back. */
  method ToggleNightMode<S>(c: HTTPInspectorClient, t: Transport<S>, s0: S)
    returns (s: S, calls: seq<Call>, err: Option<Error>)
    ensures Performs(c, t, s0, calls, s)
    ensures Paths(calls) == [ToggleNightModePath] && err == calls[0].err
  {
    var body;
    s, calls, body, err := Get(c, t, s0, ToggleNightModePath);
  }

  /** SetNightMode: one request whose last segment is the setting; only Get's error comes back. */
  method SetNightMode<S>(c: HTTPInspectorClient, t: Transport<S>, s0: S, nightMode: bool)
    returns (s: S, calls: seq<Call>, err: Option<Error>)
    ensures Performs(c, t, s0, calls, s)
    ensures Paths(calls) == [NightModePath(nightMode)] && err == calls[0].err
  {
    var body;
    s, calls, body, err := Get(c, t, s0, NightModePath(nightMode));
  }

  /** FullRefresh: one request; only Get's error comes back. */
  method FullRefresh<S>(c: HTTPInspectorClient, t: Transport<S>, s0: S)
    returns (s: S, calls: seq<Call>, err: Option<Error>)
    ensures Performs(c, t, s0, calls, s)
    ensures Paths(calls) == [FullRefreshPath] && err == calls[0].err
  {
    var body;
    s, calls, body, err := Get(c, t, s0, FullRefreshPath);
  }

  /** TurnPageBy: one request whose last segment is the amount in decimal; only Get's error comes back. */
  method TurnPageBy<S>(c: HTTPInspectorClient, t: Transport<S>, s0: S, amount: Int64)
    returns (s: S, calls: seq<Call>, err: Option<Error>)
    ensures Performs(c, t, s0, calls, s)
    ensures Paths(calls) == [TurnPagePath(amount)] && err == calls[0].err
  {
    var body;
    s, calls, body, err := Get(c, t, s0, TurnPagePath(amount));
  }

  /** NextPage is TurnPageBy(1). */
  method NextPage<S>(c: HTTPInspectorClient, t: Transport<S>, s0: S)
    returns (s: S, calls: seq<Call>, err: Option<Error>)
    ensures Performs(c, t, s0, calls, s)
    ensures Paths(calls) == [TurnPagePath(1)] && err == calls[0].err
  {
    s, calls, err := TurnPageBy(c, t, s0, 1);
  }

  /** PrevPage is TurnPageBy(-1). */
  method PrevPage<S>(c: HTTPInspectorClient, t: Transport<S>, s0: S)
    returns (s: S, calls: seq<Call>, err: Option<Error>)
    ensures Performs(c, t, s0, calls, s)
    ensures Paths(calls) == [TurnPagePath(-1)] && err == calls[0].err
  {
    s, calls, err := TurnPageBy(c, t, s0, -1);
  }

  /** GetLuaVersion: the body as a string, beside Get's error. */
  method GetLuaVersion<S>(c: HTTPInspectorClient, t: Transport<S>, s0: S)
    returns (s: S, calls: seq<Call>, version: string, err: Option<Error>)
    ensures Performs(c, t, s0, calls, s)
    ensures Paths(calls) == [VersionPath] && version == calls[0].body && err == calls[0].err
  {
    s, calls, version, err := Get(c, t, s0, VersionPath);
  }

  /** RestartKOReader: one request; only Get's error comes back. */
  method RestartKOReader<S>(c: HTTPInspectorClient, t: Transport<S>, s0: S)
    returns (s: S, calls: seq<Call>, err: Option<Error>)
    ensures Performs(c, t, s0, calls, s)
    ensures Paths(calls) == [RestartPath] && err == calls[0].err
  {
    var body;
    s, calls, body, err := Get(c, t, s0, RestartPath);
  }

  // ---------------------------------------------------------------- properties of the rules

  lemma KoreaderHasNoControlChar()
    ensures !HasControlChar("/koreader/")
  {
  }

  /** Every client NewWithClient builds can join any path: Get's join-failure branch never runs for it. */
  lemma BuiltClientsAlwaysJoin(baseURL: string, path: string)
    ensures JoinPath(NewWithClient(baseURL).0.baseURL, path).Success?
  {
    if !HasControlChar(baseURL) {
      KoreaderHasNoControlChar();
      JoinHasNoControlChar(baseURL, "/koreader/");
    }
  }

  /** SSHIsRunning reads the first element of a well-formed array of booleans, and no error. */
  lemma IsRunningReadsFirstElement(values: seq<bool>, err: Option<Error>)
    requires values != []
    ensures IsRunningAnswer(EncodeBoolSlice(values), err) == Returned(values[0], None)
  {
    ParseBoolSliceRoundTrip(values);
  }

  /** An empty array, or JSON null, makes SSHIsRunning index out of range. */
  lemma IsRunningPanicsOnEmptySlice(err: Option<Error>)
    ensures IsRunningAnswer("[]", err) == Panicked
    ensures IsRunningAnswer("null", err) == Panicked
  {
    ParseBoolSliceRoundTrip([]);
    assert IsWord("null", "null") && "null"[4..] == [];
  }

  /**
   * A body that does not decode makes SSHIsRunning report "not running" with Get's own error,
   * which is nil when the request itself succeeded.
   */
  lemma IsRunningSwallowsUndecodableBodies(body: string, err: Option<Error>)
    requires ParseBoolSlice(body) == None
    ensures IsRunningAnswer(body, err) == Returned(false, err)
  {
  }

  /** So a not-found page, which is not JSON, reads as a stopped service. */
  lemma NotFoundReadsAsStopped()
    ensures IsRunningAnswer("404 page not found\n", None) == Returned(false, None)
  {
    var page := "404 page not found\n";
    assert SkipSpace(page) == page;
    assert !IsWord(page, "null") by { assert page[0] == '4'; }
  }

  /** SSHGetPort returns the number a device wrote in decimal, and no error. */
  lemma PortAnswerReadsDecimal(port: Int64)
    ensures PortAnswer(FormatInt(port as int), None) == Returned(port, None)
  {
    AtoiFormatInt(port);
  }

  /** A failed GET makes SSHGetPort return port 0 with that error, whatever the body. */
  lemma PortAnswerOnGetError(body: string, err: Error)
    ensures PortAnswer(body, Some(err)) == Returned(0, Some(err))
  {
  }

  /** The amount can be read back from the path TurnPageBy requests, so distinct amounts give distinct paths. */
  lemma TurnPagePathDecodes(amount: Int64, other: Int64)
    ensures var p := TurnPagePath(amount);
      |p| > |"/event/GotoViewRel/"| && Atoi(p[|"/event/GotoViewRel/"|..]) == Parsed(amount, None)
    ensures TurnPagePath(amount) == TurnPagePath(other) ==> amount == other
  {
    var prefix := "/event/GotoViewRel/";
    assert TurnPagePath(amount)[|prefix|..] == FormatInt(amount as int);
    assert TurnPagePath(other)[|prefix|..] == FormatInt(other as int);
    AtoiFormatInt(amount);
    AtoiFormatInt(other);
  }

  /** NextPage and PrevPage request one page forward and one page back. */
  lemma PageTurnPaths()
    ensures TurnPagePath(1) == "/event/GotoViewRel/1"
    ensures TurnPagePath(-1) == "/event/GotoViewRel/-1"
  {
  }

  /** SetNightMode requests ".../true" or ".../false", and the setting reads back with ParseBool. */
  lemma NightModePaths(nightMode: bool)
    ensures NightModePath(true) == "/event/SetNightMode/true"
    ensures NightModePath(false) == "/event/SetNightMode/false"
    ensures ParseBool(NightModePath(nightMode)[|"/event/SetNightMode/"|..]) == Parsed(nightMode, None)
  {
    assert NightModePath(nightMode)[|"/event/SetNightMode/"|..] == FormatBool(nightMode);
    ParseBoolFormatBool(nightMode);
  }
}
