# koreader-http-inspector, modelled in Dafny

koreader-http-inspector is a Go client for the HTTP inspector that KOReader, the e-reader
application, serves on a device. Each operation of the client sends one or more GET requests
under `<base URL>/koreader/`. It can:

- start, stop and query the device's SSH service;
- read the SSH port and the "allow no password" setting, and change that setting;
- toggle or set night mode and force a full screen refresh;
- turn pages;
- read the Lua version;
- restart KOReader.

The repository also has a fake device. It is an HTTP test server with a one-bit SSH state and a
log of the request paths it received. The tests run the client against that fake.

The model has seven modules, one file each:

| file | module | models |
|---|---|---|
| `results.dfy` | `Results` | `Option` and `Result` |
| `slicemap.dfy` | `SliceMapping` | `utils/slicemap.go`: `SliceMap`, a loop proved against `MapSeq` |
| `gotext.dfy` | `GoText` | the Go library conversions the code relies on, described below |
| `urls.dfy` | `Urls` | `url.JoinPath`, as the client and the fake use it |
| `inspector.dfy` | `Inspector` | `inspector.go`, described below |
| `fakeclient.dfy` | `FakeDevice` | the fake device, described below |
| `inspector_test.dfy` | `InspectorTests` | the scenarios of `inspector_test.go`, each proved to end as the test expects |

`GoText` covers these conversions:

- `fmt`'s `%d` and `%v`;
- `strconv.Atoi`, including its range clamping and the order in which it reports range and syntax errors;
- `strconv.ParseBool`;
- `json.Unmarshal` into a `[]bool`.

In `inspector.dfy`, the `HTTPClient` the client is built with becomes a `Transport<S>`: a
function that takes the remote side's state and a URL and returns the next state and the reply.
Every operation takes the transport and a state. It returns three things:

- the state after its requests;
- the `Call`s it made, each with the path given to `Get` and what `Get` returned;
- its Go results.

A `Panicked` outcome stands for the index-out-of-range panic of `SSHIsRunning`. The ghost
predicate `Performs` ties a trace of calls to the transport.

`fakeclient.dfy` holds the fake in two forms:

- as functions on values: `Route` (the `handleRequest` switch), `Respond` (the status mapping)
  and `Serve`;
- as the class `FakeHTTPClient`, whose fields change in place and whose methods are proved to
  agree with those functions.

Both fakes in the repository are covered:

- `SharedFake` is the one in `testutils/fakeClient.go`;
- `PackageTestFake` is the copy in `inspector_test.go`, which also answers `FullRefresh`.

Where the code and its surrounding description could be read differently, the model follows
the code. Three examples:

- `SSHIsRunning` drops the JSON decoding error and returns `Get`'s error instead.
- Indexing an empty decoded slice panics.
- `RestartKOReader` reports no error when the device answers 404, because `Get` never looks at
  the status.

## Model

| member | source | states |
|---|---|---|
| SliceMapping.SliceMap | utils/slicemap.go:3-11 | the result has one element per input element, the function's image of it, in input order; an empty input gives an empty result |
| SliceMapping.MapSeqAppend | utils/slicemap.go:6-8 | appending to the input appends the images at the end of the result, which is what each loop iteration does |
| GoText.AtoiSucceedsExactlyOnInt64Decimals | inspector.go:54 | strconv.Atoi returns no error exactly when the body is an optionally signed decimal whose value fits in 64 bits, and then returns that value |
| GoText.AtoiFormatInt | inspector.go:49-55 | strconv.Atoi, as SSHGetPort applies it, reads back what %d wrote for any 64-bit int, with no error |
| GoText.ParseBoolFormatBool | inspector.go:57-63 | strconv.ParseBool, as SSHGetAllowNoPassword applies it, reads back what %v wrote for a bool |
| GoText.ParseBoolSliceRoundTrip | inspector.go:87-88 | json.Unmarshal into a []bool decodes the JSON array of any boolean slice to that slice |
| Urls.JoinHasNoControlChar | inspector.go:131 | a join of two strings that url.Parse accepts is itself accepted, so a built base URL parses again |
| Urls.JoinKeepsTrailingSlash | inspector.go:149 | url.JoinPath keeps the element's trailing slash, so paths such as /ui/SSH/start/ reach the device with it |
| Inspector.NewWithClient | inspector.go:130-137 | the join fails exactly when the base URL holds a control character; on success the base URL is the given one with "/koreader/" under it, on failure the client is still built with an empty base URL |
| Inspector.Get | inspector.go:147-163 | a join failure sends nothing and returns the error with no bytes; a transport failure returns no bytes and that error; otherwise the body comes back with the read error, whatever the status; the new state is the transport's |
| Inspector.PerformsAppend | inspector.go:34-47 | running one request trace and then another performs their concatenation, so an operation built from several Gets performs its whole trace |
| Inspector.SSHIsRunning | inspector.go:85-92 | one request to /ui/SSH/isRunning/; the result is IsRunningAnswer of the call's body and error |
| Inspector.SSHGetPort | inspector.go:49-55 | one request to ui/SSH/SSH_port; on a Get error port 0 with that error, else Atoi of the body |
| Inspector.SSHStart | inspector.go:34-47 | the trace is a prefix of start, isRunning, SSH_port; it stops after start on a Get error, and after isRunning on a panic, an error or a stopped service (with the client error); otherwise the port answer is the result |
| Inspector.SSHStop | inspector.go:70-83 | the trace is stop, then isRunning unless stop failed; the error is the first failure, a client error if the service still runs, else none |
| Inspector.SSHGetAllowNoPassword | inspector.go:57-63 | one request to ui/SSH/allow_no_password; on a Get error false with that error, else ParseBool of the body |
| Inspector.SSHSetAllowNoPassword | inspector.go:65-68 | one request whose path carries the setting after "?="; only Get's error comes back |
| Inspector.ToggleNightMode | inspector.go:94-97 | one request to /event/ToggleNightMode; only Get's error comes back |
| Inspector.SetNightMode | inspector.go:99-104 | one request to /event/SetNightMode/ followed by true or false; only Get's error comes back |
| Inspector.FullRefresh | inspector.go:106-109 | one request to /event/FullRefresh; only Get's error comes back |
| Inspector.TurnPageBy | inspector.go:111-116 | one request to /event/GotoViewRel/ followed by the amount in decimal; only Get's error comes back |
| Inspector.NextPage | inspector.go:118-120 | the same request as TurnPageBy(1) |
| Inspector.PrevPage | inspector.go:122-124 | the same request as TurnPageBy(-1) |
| Inspector.GetLuaVersion | inspector.go:165-168 | one request to /globals/_VERSION; the body as a string beside Get's error |
| Inspector.RestartKOReader | inspector.go:170-173 | one request to /UIManager/restartKOReader/; only Get's error comes back |
| Inspector.BuiltClientsAlwaysJoin | inspector.go:149-153 | for every client NewWithClient builds, whether or not it returned an error, Get's join never fails |
| Inspector.IsRunningReadsFirstElement | inspector.go:85-92 | for the JSON array json.Marshal writes for a non-empty []bool, SSHIsRunning returns its first element and no error, whatever Get's error was |
| Inspector.IsRunningPanicsOnEmptySlice | inspector.go:91 | the body "[]" or "null" decodes to an empty slice, and indexing it panics |
| Inspector.IsRunningSwallowsUndecodableBodies | inspector.go:88-90 | a body that does not decode gives false with Get's error, not the decoding error |
| Inspector.NotFoundReadsAsStopped | inspector.go:88-90 | a 404 page reads as a stopped service with no error |
| Inspector.PortAnswerReadsDecimal | inspector.go:49-55 | SSHGetPort returns the port a device wrote in decimal, with no error |
| Inspector.PortAnswerOnGetError | inspector.go:50-53 | a failed Get makes SSHGetPort return 0 with that error, whatever the body |
| Inspector.TurnPagePathDecodes | inspector.go:111-116 | the amount can be read back from the TurnPageBy path, so distinct amounts request distinct paths |
| Inspector.PageTurnPaths | inspector.go:118-124 | NextPage requests GotoViewRel/1 and PrevPage requests GotoViewRel/-1 |
| Inspector.NightModePaths | inspector.go:99-104 | SetNightMode requests .../true or .../false, and ParseBool reads the setting back from the path |
| FakeDevice.RouteChangesOnlyOnStartAndStop | testutils/fakeClient.go:48-64 | only the start path changes the SSH state (to running) and only the stop path changes it (to stopped) |
| FakeDevice.IsRunningRouteReportsState | testutils/fakeClient.go:52-53 | the status body is the JSON array of the current state, and the client reads that state back from it |
| FakeDevice.HandlerNeverAnswers500 | testutils/fakeClient.go:25-34 | the fake answers 200 or 404, never 500, and it answers 404 exactly when handleRequest returned an error |
| FakeDevice.PackageTestFakeExtendsShared | inspector_test.go:164-183 | the package's copy agrees with the shared fake except that it answers FullRefresh; its ToggleNightMode case is empty, so that path is still not found |
| FakeDevice.FakeLogsEveryCall | testutils/fakeClient.go:22-24 | over any run of the client against the fake, the log grows by one path per call, in call order, each the URL the call joined as the server sees it |
| FakeDevice.FakeHTTPClient.constructor | testutils/fakeClient.go:20-38 | a new fake has SSH stopped and an empty log |
| FakeDevice.FakeHTTPClient.HandleRequest | testutils/fakeClient.go:48-64 | the switch on the path: version, status, start, port and stop are answered, and start and stop set the SSH flag; any other path is not found |
| FakeDevice.FakeHTTPClient.ServeHTTP | testutils/fakeClient.go:22-36 | the request path is appended to the log before routing; a not-found error answers 404 with the not-found page, another error 500, otherwise 200 with the body |
| FakeDevice.FakeHTTPClient.Get | testutils/fakeClient.go:40-46 | a request through the fake leaves the fake in the state, and gives the reply, that FakeTransport states |
| InspectorTests.TestClient | inspector_test.go:135-138 | NewWithClient("", fake) returns no error and the base URL "/koreader/" |
| InspectorTests.TestGetVersion | inspector_test.go:19-31 | GetLuaVersion against the fake returns "Lua 5.1" with no error |
| InspectorTests.TestRestart | inspector_test.go:33-49 | RestartKOReader against the fake returns no error, and the restart path is the one request the fake received |
| InspectorTests.TestFullRefresh | inspector_test.go:51-58 | FullRefresh against the package's fake returns no error, after one request to the refresh route |
| InspectorTests.TestSSH | inspector_test.go:60-80 | on a fresh fake SSHIsRunning returns false, SSHStart returns port 2222, and the deferred SSHStop returns no error; the fake logged the six requests in order and ends stopped |

## Left out

- Logging: the client's `Logger` and its `Printf` calls, and the fake's `t.Logf` calls. They do not change any result.
- The real `net/http` transport, `http.DefaultClient` and `New`: the transport is a parameter of every operation, and any transport can be supplied.
- `GetWithQuery`: no other operation calls it. It would need `url.JoinPath` with a "?" element, which this model of joining does not describe.
- `url.JoinPath` is reduced to slash trimming and a refusal of ASCII control characters. Dot segments, escaping, and the other reasons `url.Parse` fails are not modelled.
- The fake's `Get` never fails on a path: `url.JoinPath` parses only the server's own URL, and the joined URL's control characters are percent-escaped before `http.Get`. So the fake's model has no failure branch, and its server sees the unescaped path.
- The host part of the test server's URL is not modelled: the server sees only the path.
- HTTP requests are reduced to their path, and responses to their status, body and read error.
- The "Real client" subtests and `checkServerReachable` need a device on the network. Only the "Fake client" subtests are modelled.
- `Test_Restart` builds its failure message with `SliceMap` over the logged requests. That message is not modelled; `SliceMap` itself is.
- The fake's handler can run on several goroutines. The model serves requests one at a time.
- A nil slice and an empty slice are not told apart, and neither are nil and empty byte slices.
- JSON decoding errors all collapse to "does not decode". Only JSON whitespace, `null`, `true`, `false` and arrays of these are decoded; any other value is treated as undecodable.
- Go's `int` is modelled as a 64-bit integer (`Int64`); a 32-bit platform is not modelled.
- Inspector.NewWithClient: url.JoinPath is modelled as slash trimming, so an empty base URL gives "/koreader/" here, where Go gives the relative "koreader/". The base also fails to join only on a control character; url.Parse's other failure causes are not modelled. A control character after '#' is accepted by Go and refused here, because the query and fragment are not separated from the path; a base URL holding '?' or '#' therefore also joins differently here.
- InspectorTests.TestClient: states the base URL "/koreader/" for NewWithClient(""), where Go gives "koreader/". Both reach the same server path "/koreader/..." once the fake joins them under its own URL, so the scenarios hold as stated.
- Inspector.Get: states that a read error comes back as an error, but not its wording beyond the reason string.
