# 3x-ui monitoring agent: a Dafny model of the polling cycle, configuration and auth gate

The agent logs in to a 3x-ui web panel, fetches the number of online users
with the session cookie from the login, samples local CPU and heap usage, and
publishes the three values as the gauges `cpu_usage`, `online_users` and
`ram_usage`. A configuration loader reads the environment first and falls
back to `config.yaml`. An HTTP Basic Authentication gate protects the metrics
endpoint.

The model has five modules:

- `Wrappers` (wrappers.dfy): `Option` and `Result`, standing in for Go's nil
  pointers and `(value, error)` returns.
- `Json` (json.dfy): an already-decoded JSON value. A missing key reads like
  an explicit `null`, as it does for Go's `map[string]interface{}`.
- `Config` (config.dfy): the configuration record and the eight required keys.
  It has `GetEnv`, the environment path (`EnvConfig`) and the missing-key list.
  That list is built by a straight-line method (`CollectMissing`) and
  specified by a filter over the key order (`Missing`). It also has the file
  path (`FromFile` specifies `FileConfig`) and `LoadConfig`. A fatal log line
  becomes an `Err` result.
- `Auth` (auth.dfy): the gate's decision, forward or reject with 401, as a
  value.
- `Metrics` (metrics.dfy): the request URLs and the login decision.
  `LoginToAPI` fills the cookie jar in a loop and is specified by `Login`.
  Also here: JSON-object decoding, the online-count decision, and CPU sample
  selection. The cycle is a function (`RunCycle`), and n cycles in a row are
  `RunCycles`. The `Poller` class holds the three gauges and a log of the
  requests sent. Its methods `UpdateMetrics` and `StartPolling` change these
  fields step by step, as the source does, and are proved equal to
  `RunCycle` and `RunCycles`.

The world outside the process is an input:
- the panel's replies to the two POST requests: a transport failure, or a
  status with cookies or a body;
- the CPU sampler's result;
- the heap size in megabytes;
- the environment as a map;
- the configuration file as "cannot open", "cannot decode" or a decoded record;
- the request's Basic credentials as "absent" or a (user-id, password) pair.

Two behaviours a reader might not expect are kept as the code has them:

- A login needs only status 200. No cookie is required; the jar is created
  even when the response sets none.
- A successful online reply whose `obj` is not an array counts 0 users
  without an error (metrics/metrics.go:104-107). A wrong field type there is
  not treated as malformed.

## Model

| member | source | states |
|---|---|---|
| `Config.GetEnv` | config/config.go:68-74 | a non-empty environment value is returned as is; an empty or unset one gives the fallback; the result is empty only when both are |
| `Config.EnvConfig` | config/config.go:22-33 | the five panel keys come verbatim from the environment; APP_PORT and the two basic-auth keys are taken as given when set and otherwise fall back to "8080", "admin" and "admin", so they are never empty; the online path is always `panel/api/inbounds/onlines` |
| `Config.MissingAmong` | config/config.go:35-59 | the list for a run of keys is never longer than that run |
| `Config.Missing` | config/config.go:90-114 | the list both loaders report holds at most the eight required keys; its exact contents and order are given by `MissingMembers` and `MissingAmongInOrder` |
| `Config.CollectMissing` | config/config.go:35-59 | the eight tests-and-appends produce exactly the list `Missing` |
| `Config.MissingUnrolled` | config/config.go:90-114 | the missing list is the concatenation, in key order, of one optional entry per required key |
| `Config.MissingAmongMembers` | config/config.go:35-59 | a key is in the list if and only if it is one of the tested keys and its field is empty |
| `Config.MissingMembers` | config/config.go:90-114 | the list names exactly the empty fields among the eight required entries |
| `Config.MissingAmongInOrder` | config/config.go:35-59 | the list is a subsequence of the key order: each entry has a position in the key list, and the positions strictly increase |
| `Config.MissingEmptyIffComplete` | config/config.go:60-63 | the list is empty if and only if all eight required fields are non-empty |
| `Config.EveryKeyRequired` | config/config.go:10-20 | every key of the configuration record except the online path is one of the eight tested |
| `Config.EnvMissingOnlyPanelKeys` | config/config.go:29-59 | on the environment path only HOST, PORT, BASEPATH, USERNAME and PASSWORD can be missing; the environment config is complete if and only if those five variables are non-empty |
| `Config.FromFile` | config/config.go:76-123 | an open or decode failure is fatal; a decoded file is accepted if and only if all eight entries are non-empty, with no default for APP_PORT or the credentials; otherwise it fails with the missing list; on success only the online path may differ from the file: an empty one becomes the default, a non-empty one is kept; all nine fields are then non-empty |
| `Config.FileConfig` | config/config.go:90-123 | collecting the missing list, defaulting the online path in place and then deciding gives exactly `FromFile` |
| `Config.LoadConfig` | config/config.go:60-65 | the environment config is returned, unchanged, exactly when it is complete; otherwise the result is the file path's; any config returned has all nine fields non-empty |
| `Auth.BasicAuth` | auth/auth.go:8-18 | the request is forwarded if and only if credentials are present and both the user-id and the password match, that is, if and only if they are exactly the configured pair; a rejection is a 401 with body text "Unauthorized" and the challenge `Basic realm="Restricted"`, and the wrapped handler is not called |
| `Auth.HalfMatchRejected` | auth/auth.go:11-13 | a request matching only the user-id, or only the password, is rejected with 401 and the challenge |
| `Metrics.LoginUrl` | metrics/metrics.go:55 | the login URL is `https://` + host + `:` + port + `/` + basepath + `/login` |
| `Metrics.OnlineUrl` | metrics/metrics.go:82 | the online URL is the same prefix followed by `/` and the online path, and shares the login URL's prefix |
| `Metrics.OnlineUrlIsLoginUrlIff` | metrics/metrics.go:55-82 | the two URLs are equal if and only if the online path is `login`, so under the default path the two requests are distinguishable |
| `Metrics.Login` | metrics/metrics.go:57-75 | a transport failure or a non-200 status is an error and gives no client; a 200 always gives a client whose cookie jar exists and holds exactly the response's cookies |
| `Metrics.LoginToAPI` | metrics/metrics.go:47-76 | creating the jar and storing the cookies one at a time gives exactly `Login`'s result |
| `Json.Field` | metrics/metrics.go:100-104 | reading a key of the decoded object gives its value, and an absent key reads exactly like an explicit `null` |
| `Metrics.DecodeObject` | metrics/metrics.go:95-98 | a body that is not JSON, or is JSON but neither an object nor `null`, is a decode error; an object gives its fields; `null` gives an empty object |
| `Metrics.CountOnline` | metrics/metrics.go:100-109 | it is an error if and only if `success` is not the boolean `true`; with `success == true`, an array `obj` gives its length and an absent, null or non-array `obj` gives 0 with no error |
| `Metrics.UnsuccessfulWhateverObj` | metrics/metrics.go:100-102 | when `success` is missing, not a boolean or false, the result is the unsuccessful error whatever `obj` is |
| `Metrics.GetOnlineCount` | metrics/metrics.go:78-110 | without a cookie jar it fails and sends no request; otherwise it sends exactly one request, to the online URL. The error precedence is: transport failure, then a non-200 status, then a decode error, then an unsuccessful reply. Past those checks the count is that of the decoded reply |
| `Metrics.NullObjCountsZero` | metrics/metrics.go:104-107 | `{"success": true, "obj": null}` with status 200 counts 0 |
| `Metrics.ThreeElementObjCountsThree` | metrics/metrics.go:104-109 | `{"success": true, "obj": [1, 2, 3]}` with status 200 counts 3 |
| `Metrics.CpuUsage` | metrics/metrics.go:119-129 | the sampler's error, or an empty list of figures, is an error; otherwise the first figure is the CPU usage |
| `Metrics.RunCycle` | metrics/metrics.go:131-158 | the steps run in the order login, CPU, online count, RAM, and the first failure ends the cycle. A login or CPU failure changes no gauge and sends only the login request. An online failure sets only the CPU gauge. A complete cycle sets all three gauges: the first CPU figure, the online count and the heap size. The online request is sent whenever the CPU step succeeds, because a successful login always leaves a cookie jar |
| `Metrics.UndecodableBodyKeepsOnlineGauge` | metrics/metrics.go:145-150 | a 200 online reply whose body does not decode into an object (not JSON, or a top-level array, number, string or boolean) leaves the online-users and RAM gauges unchanged and the cycle does not complete; when login and CPU succeed, the cycle stops at the online step |
| `Metrics.RunCycles` | metrics/metrics.go:160-168 | n ticks run n cycles in order; each cycle sends the login request and at most one more, so n to 2n requests in all |
| `Metrics.FailingLoginsChangeNothing` | metrics/metrics.go:160-168 | over any number of cycles whose logins all fail, every gauge keeps its initial value, and only one login request per cycle is sent |
| `Metrics.Poller.constructor` | metrics/metrics.go:26-39 | the three gauges start at zero and no request has been sent |
| `Metrics.Poller.UpdateMetrics` | metrics/metrics.go:131-158 | the gauges after the step-by-step cycle are `RunCycle`'s, and the requests it appends to the log are `RunCycle`'s |
| `Metrics.Poller.StartPolling` | metrics/metrics.go:160-168 | polling for n ticks leaves the gauges and the request log of `RunCycles`, one cycle per tick in order |

## Left out

- HTTP transport: TLS, the 10-second client timeout, form encoding of the login credentials and closing response bodies. A reply is an input: a transport failure, or a status with cookies or a parsed body.
- Cookie-jar internals: domain and path matching, and replacing a cookie that has the same name. The jar is modelled as the list of cookies stored into it, in order.
- The error branch after `cookiejar.New(nil)` (metrics/metrics.go:67-70) is not modelled. With nil options that call never returns an error.
- JSON decoding itself: the body is an input, either not JSON or a decoded value. Numbers are kept as integers because none is inspected. For duplicate object keys the model's map keeps one value; Go keeps the last one.
- CPU sampling (`cpu.Percent`, a one-second blocking window) and reading heap statistics are OS and runtime calls. Their results are inputs.
- The bytes-to-megabytes division in `ramUsage` is floating point. The heap size in megabytes is an input.
- The error branch after `ramUsage()` (metrics/metrics.go:152-156) is not modelled. That function always returns a nil error.
- Gauge values are Dafny reals, not IEEE float64. Converting an online count to a gauge value is exact here, so float64 rounding of very large counts is not captured.
- Prometheus gauge registration, help texts and the text exposition of `/metrics`.
- The ticker and goroutine in `StartPolling`, and the `go` launch in main.go: timing and concurrency. Polling is modelled as n sequential cycles, so a scrape that reads the gauges in the middle of a cycle is not captured.
- The gauges are process-wide variables in the source. In the model they are fields of `Poller` next to its configuration.
- `loginToAPI`'s `*http.Client` parameter is ignored by the source and does not appear in the model.
- Log output from every `log.Printf`/`log.Println`.
- `os.Getenv`, `os.Open` and YAML decoding. The environment is a map and the file is one of "cannot open", "cannot decode" or a decoded record. `log.Fatalf` is an `Err` result, not process termination.
- The configuration is a `*Config` pointer in the source and a value in the model. `FileConfig`'s in-place update of the online path is a field update on a local variable. Nothing else holds that pointer at that point, so no alias can observe a difference.
- `r.BasicAuth()` header parsing (base64 decoding of the credentials) is library code. The gate receives "absent" or a (user-id, password) pair.
- `http.Error`'s trailing newline, and the `Content-Type` and `X-Content-Type-Options` headers it sets.
- main.go: wiring only.
