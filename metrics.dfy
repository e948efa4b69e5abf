/**
 * The polling cycle: log in to the panel, sample the CPU, fetch the number of
 * online users with the login's session cookies, read the process heap size,
 * and publish each value to its gauge as soon as its step succeeds.
 *
 * Everything outside the process is an input: the panel's replies to the two
 * POST requests, the CPU sampler's result and the heap size in megabytes. The
 * requests the cycle sends are recorded, by URL, so that the model can say
 * which of them a failing cycle never makes.
 */
module Metrics {
  import opened Wrappers
  import opened Json
  import opened Config

  const StatusOK: int := 200

  // ---------------------------------------------------------------------------
  // Request URLs

  /** `https://{host}:{port}/{basepath}`, the prefix both requests share. */
  function BaseUrl(cfg: Config): string
  {
    "https://" + cfg.host + ":" + cfg.port + "/" + cfg.basepath
  }

  /** The login endpoint: the shared prefix followed by `/login`. */
  function LoginUrl(cfg: Config): (u: string)
    ensures u == "https://" + cfg.host + ":" + cfg.port + "/" + cfg.basepath + "/login"
    ensures u == BaseUrl(cfg) + "/login"
  {
    BaseUrl(cfg) + "/login"
  }

  /** The online-users endpoint: the same prefix followed by `/` and the configured path. */
  function OnlineUrl(cfg: Config): (u: string)
    ensures u == "https://" + cfg.host + ":" + cfg.port + "/" + cfg.basepath + "/" + cfg.onlinePath
    ensures u[..|BaseUrl(cfg)|] == LoginUrl(cfg)[..|BaseUrl(cfg)|]
  {
    BaseUrl(cfg) + "/" + cfg.onlinePath
  }

  /**
   * The two requests go to different URLs unless the online path is literally
   * "login"; in particular they differ under the default online path.
   */
  lemma OnlineUrlIsLoginUrlIff(cfg: Config)
    ensures OnlineUrl(cfg) == LoginUrl(cfg) <==> cfg.onlinePath == "login"
  {
    var b := BaseUrl(cfg);
    if OnlineUrl(cfg) == LoginUrl(cfg) {
      assert OnlineUrl(cfg)[|b| + 1..] == cfg.onlinePath;
      assert LoginUrl(cfg)[|b| + 1..] == "login";
    }
  }

  // ---------------------------------------------------------------------------
  // Login

  datatype Cookie = Cookie(name: string, value: string)

  /** An HTTP client; `jar` is `None` when the client has no cookie jar. */
  datatype Client = Client(jar: Option<seq<Cookie>>)

  /** What the login POST yields: a transport failure or a response. */
  datatype LoginReply =
    | LoginTransportError
    | LoginResponse(status: int, cookies: seq<Cookie>)

  datatype LoginError =
    | LoginTransport
    | LoginStatus(status: int)

  /**
   * Only a 200 response logs in, with or without cookies; the client it gives
   * always has a cookie jar, holding exactly the response's cookies.
   */
  function Login(reply: LoginReply): (r: Result<Client, LoginError>)
    ensures r.Ok? <==> reply.LoginResponse? && reply.status == StatusOK
    ensures r.Ok? ==> r.value.jar == Some(reply.cookies)
    ensures reply.LoginTransportError? ==> r == Err(LoginTransport)
    ensures reply.LoginResponse? && reply.status != StatusOK ==> r == Err(LoginStatus(reply.status))
  {
    match reply
    case LoginTransportError => Err(LoginTransport)
    case LoginResponse(status, cookies) =>
      if status != StatusOK then Err(LoginStatus(status))
      else Ok(Client(Some(cookies)))
  }

  /** Logs in, creating a fresh jar and storing the response's cookies in it one at a time. */
  method LoginToAPI(reply: LoginReply) returns (r: Result<Client, LoginError>)
    ensures r == Login(reply)
  {
    match reply
    case LoginTransportError =>
      return Err(LoginTransport);
    case LoginResponse(status, cookies) =>
      if status != StatusOK {
        return Err(LoginStatus(status));
      }
      var jar: seq<Cookie> := [];
      for i := 0 to |cookies|
        invariant jar == cookies[..i]
      {
        jar := jar + [cookies[i]];
      }
      assert cookies[..|cookies|] == cookies;
      return Ok(Client(Some(jar)));
  }

  // ---------------------------------------------------------------------------
  // Online count

  /** A response body: either not JSON at all, or a decoded JSON value. */
  datatype Body = Malformed | Parsed(value: Json)

  /** What the online-users POST yields: a transport failure or a response. */
  datatype OnlineReply =
    | OnlineTransportError
    | OnlineResponse(status: int, body: Body)

  datatype FetchError =
    | NoCookieJar
    | FetchTransport
    | FetchStatus(status: int)
    | BadJson
    | Unsuccessful

  /**
   * Decoding a body into a JSON object: an object gives its fields, a bare
   * `null` leaves the object empty, anything else is a decode error.
   */
  function DecodeObject(body: Body): (r: Result<map<string, Json>, FetchError>)
    ensures r.Err? <==> body.Malformed? || !(body.value.JObject? || body.value.JNull?)
    ensures r.Err? ==> r.error == BadJson
    ensures r.Ok? && body.value.JObject? ==> r.value == body.value.fields
    ensures r.Ok? && body.value.JNull? ==> r.value == map[]
  {
    match body
    case Malformed => Err(BadJson)
    case Parsed(v) =>
      match v
      case JObject(fields) => Ok(fields)
      case JNull => Ok(map[])
      case _ => Err(BadJson)
  }

  /**
   * The count in a decoded reply: `success` must be the boolean true, else
   * the reply is unsuccessful whatever `obj` holds; then an array `obj` gives
   * its length and anything else (absent, null, an object, a number, ...)
   * gives 0 without an error.
   */
  function CountOnline(data: map<string, Json>): (r: Result<nat, FetchError>)
    ensures r.Err? <==> Field(data, "success") != JBool(true)
    ensures r.Err? ==> r.error == Unsuccessful
    ensures r.Ok? && Field(data, "obj").JArray? ==> r.value == |Field(data, "obj").elems|
    ensures r.Ok? && !Field(data, "obj").JArray? ==> r.value == 0
  {
    var success := Field(data, "success");
    if !success.JBool? || !success.b then Err(Unsuccessful)
    else
      match Field(data, "obj")
      case JArray(elems) => Ok(|elems|)
      case _ => Ok(0)
  }

  /** Once `success` is not true, `obj` cannot change the outcome. */
  lemma UnsuccessfulWhateverObj(data: map<string, Json>, obj: Json)
    requires Field(data, "success") != JBool(true)
    ensures CountOnline(data) == Err(Unsuccessful)
    ensures CountOnline(data["obj" := obj]) == Err(Unsuccessful)
  {
  }

  /** The outcome of asking for the online count: the request sent, if any, and the result. */
  datatype Fetch = Fetch(request: Option<string>, result: Result<nat, FetchError>)

  /**
   * A client without a cookie jar fails before any request is sent. Otherwise
   * one request goes to the online URL; a transport failure, a non-200 status,
   * an undecodable body and an unsuccessful reply are errors, in that order of
   * precedence, and the count is that of the decoded reply.
   */
  function GetOnlineCount(cfg: Config, client: Client, reply: OnlineReply): (f: Fetch)
    ensures f.request.None? <==> client.jar.None?
    ensures client.jar.None? ==> f.result == Err(NoCookieJar)
    ensures client.jar.Some? ==> f.request == Some(OnlineUrl(cfg))
    ensures client.jar.Some? && reply.OnlineTransportError? ==> f.result == Err(FetchTransport)
    ensures client.jar.Some? && reply.OnlineResponse? && reply.status != StatusOK ==>
      f.result == Err(FetchStatus(reply.status))
    ensures client.jar.Some? && reply.OnlineResponse? && reply.status == StatusOK ==>
      f.result == (match DecodeObject(reply.body)
                   case Err(e) => Err(e)
                   case Ok(data) => CountOnline(data))
  {
    if client.jar.None? then Fetch(None, Err(NoCookieJar))
    else
      var request := Some(OnlineUrl(cfg));
      match reply
      case OnlineTransportError => Fetch(request, Err(FetchTransport))
      case OnlineResponse(status, body) =>
        if status != StatusOK then Fetch(request, Err(FetchStatus(status)))
        else
          match DecodeObject(body)
          case Err(e) => Fetch(request, Err(e))
          case Ok(data) => Fetch(request, CountOnline(data))
  }

  /** A 200 reply `{"success": true, "obj": null}` counts 0 users. */
  lemma NullObjCountsZero(cfg: Config, client: Client)
    requires client.jar.Some?
    ensures GetOnlineCount(cfg, client,
      OnlineResponse(200, Parsed(JObject(map["success" := JBool(true), "obj" := JNull])))).result == Ok(0)
  {
  }

  /** A 200 reply `{"success": true, "obj": [1, 2, 3]}` counts 3 users. */
  lemma ThreeElementObjCountsThree(cfg: Config, client: Client)
    requires client.jar.Some?
    ensures GetOnlineCount(cfg, client,
      OnlineResponse(200, Parsed(JObject(map["success" := JBool(true),
                                             "obj" := JArray([JNumber(1), JNumber(2), JNumber(3)])])))).result == Ok(3)
  {
  }

  // ---------------------------------------------------------------------------
  // CPU sample

  /** What the sampler yields: an error, or one percentage per reported CPU figure. */
  datatype CpuSample = SamplerError | Percentages(values: seq<real>)

  datatype CpuError = SamplerFailed | NoCpuFigure

  /** The CPU usage is the first figure; a sampler error or an empty list is an error. */
  function CpuUsage(sample: CpuSample): (r: Result<real, CpuError>)
    ensures r.Ok? <==> sample.Percentages? && |sample.values| > 0
    ensures r.Ok? ==> r.value == sample.values[0]
    ensures sample.SamplerError? ==> r == Err(SamplerFailed)
    ensures sample.Percentages? && sample.values == [] ==> r == Err(NoCpuFigure)
  {
    match sample
    case SamplerError => Err(SamplerFailed)
    case Percentages(values) =>
      if |values| > 0 then Ok(values[0]) else Err(NoCpuFigure)
  }

  // ---------------------------------------------------------------------------
  // The cycle

  /** The three gauges: CPU percentage, online users, heap megabytes. */
  datatype Gauges = Gauges(cpu: real, online: real, ram: real)

  /** Everything the outside world contributes to one cycle. */
  datatype CycleInputs = CycleInputs(login: LoginReply, cpu: CpuSample, online: OnlineReply, ram: real)

  /** How far a cycle got. */
  datatype Stage = LoginFailed | CpuFailed | OnlineFailed | Completed

  datatype CycleOutcome = CycleOutcome(gauges: Gauges, requests: seq<string>, stage: Stage)

  /**
   * One cycle, as a function of the gauges before it. The steps run in the
   * order login, CPU, online count, RAM, and the first failure ends the cycle:
   * a login or CPU failure changes no gauge and sends no online request, an
   * online failure changes only the CPU gauge, and a complete cycle sets all
   * three. A successful login always leaves a cookie jar, so the online
   * request is sent whenever the CPU step succeeds.
   */
  function RunCycle(cfg: Config, g: Gauges, inputs: CycleInputs): (o: CycleOutcome)
    ensures o.stage == LoginFailed <==> Login(inputs.login).Err?
    ensures o.stage == CpuFailed <==> Login(inputs.login).Ok? && CpuUsage(inputs.cpu).Err?
    ensures o.stage == OnlineFailed <==>
      Login(inputs.login).Ok? && CpuUsage(inputs.cpu).Ok? &&
      GetOnlineCount(cfg, Login(inputs.login).value, inputs.online).result.Err?
    ensures o.stage == LoginFailed || o.stage == CpuFailed ==>
      o.gauges == g && o.requests == [LoginUrl(cfg)]
    ensures o.stage == OnlineFailed || o.stage == Completed ==>
      o.requests == [LoginUrl(cfg), OnlineUrl(cfg)] && o.gauges.cpu == inputs.cpu.values[0]
    ensures o.stage == OnlineFailed ==> o.gauges.online == g.online && o.gauges.ram == g.ram
    ensures o.stage == Completed ==>
      o.gauges.online == GetOnlineCount(cfg, Login(inputs.login).value, inputs.online).result.value as real &&
      o.gauges.ram == inputs.ram
  {
    match Login(inputs.login)
    case Err(_) => CycleOutcome(g, [LoginUrl(cfg)], LoginFailed)
    case Ok(client) =>
      match CpuUsage(inputs.cpu)
      case Err(_) => CycleOutcome(g, [LoginUrl(cfg)], CpuFailed)
      case Ok(cpu) =>
        var fetch := GetOnlineCount(cfg, client, inputs.online);
        var sent := [LoginUrl(cfg)] + (if fetch.request.Some? then [fetch.request.value] else []);
        match fetch.result
        case Err(_) => CycleOutcome(g.(cpu := cpu), sent, OnlineFailed)
        case Ok(n) => CycleOutcome(Gauges(cpu, n as real, inputs.ram), sent, Completed)
  }

  /**
   * A 200 online reply whose body does not decode into an object (not JSON,
   * or a top-level array, number, string or boolean) leaves the online and
   * RAM gauges as they were; once login and CPU succeed, the cycle stops at
   * the online step.
   */
  lemma UndecodableBodyKeepsOnlineGauge(cfg: Config, g: Gauges, inputs: CycleInputs)
    requires inputs.online.OnlineResponse? && inputs.online.status == StatusOK
    requires DecodeObject(inputs.online.body).Err?
    ensures RunCycle(cfg, g, inputs).gauges.online == g.online
    ensures RunCycle(cfg, g, inputs).gauges.ram == g.ram
    ensures RunCycle(cfg, g, inputs).stage != Completed
    ensures Login(inputs.login).Ok? && CpuUsage(inputs.cpu).Ok? ==>
      RunCycle(cfg, g, inputs).stage == OnlineFailed
  {
  }

  /** The result of several cycles in a row: the last gauges and every request sent. */
  datatype Run = Run(gauges: Gauges, requests: seq<string>)

  /** The cycles of `inputs`, one per tick, in order: each sends the login request and at most one more. */
  function RunCycles(cfg: Config, g: Gauges, inputs: seq<CycleInputs>): (r: Run)
    ensures |inputs| <= |r.requests| <= 2 * |inputs|
  {
    if inputs == [] then Run(g, [])
    else
      var before := RunCycles(cfg, g, inputs[..|inputs| - 1]);
      var o := RunCycle(cfg, before.gauges, inputs[|inputs| - 1]);
      Run(o.gauges, before.requests + o.requests)
  }

  /**
   * While every login fails, no gauge ever moves from where it started and
   * the only requests sent are one login attempt per cycle.
   */
  lemma {:induction false} FailingLoginsChangeNothing(cfg: Config, g: Gauges, inputs: seq<CycleInputs>)
    requires forall i :: 0 <= i < |inputs| ==> Login(inputs[i].login).Err?
    ensures RunCycles(cfg, g, inputs).gauges == g
    ensures |RunCycles(cfg, g, inputs).requests| == |inputs|
    ensures forall u :: u in RunCycles(cfg, g, inputs).requests ==> u == LoginUrl(cfg)
  {
    if inputs != [] {
      var init := inputs[..|inputs| - 1];
      FailingLoginsChangeNothing(cfg, g, init);
    }
  }

  /**
   * The metrics agent: its configuration, the three process-wide gauges, and
   * the log of requests it has sent to the panel.
   */
  class Poller {
    const cfg: Config
    var cpuUsage: real      // gauge `cpu_usage`
    var onlineUsers: real   // gauge `online_users`
    var ramUsage: real      // gauge `ram_usage`
    var sent: seq<string>

    /** The current gauge values. */
    function Snapshot(): Gauges
      reads this
    {
      Gauges(cpuUsage, onlineUsers, ramUsage)
    }

    /** A fresh agent: gauges start at zero and nothing has been sent. */
    constructor (cfg: Config)
      ensures this.cfg == cfg
      ensures Snapshot() == Gauges(0.0, 0.0, 0.0) && sent == []
    {
      this.cfg := cfg;
      cpuUsage, onlineUsers, ramUsage := 0.0, 0.0, 0.0;
      sent := [];
    }

    /**
     * One cycle: each gauge is set right after its own step succeeds and the
     * first failure returns, so the gauges and the requests are those of
     * `RunCycle`.
     */
    method UpdateMetrics(inputs: CycleInputs)
      modifies this
      ensures Snapshot() == RunCycle(cfg, old(Snapshot()), inputs).gauges
      ensures sent == old(sent) + RunCycle(cfg, old(Snapshot()), inputs).requests
    {
      sent := sent + [LoginUrl(cfg)];
      var client := LoginToAPI(inputs.login);
      if client.Err? {
        return;
      }
      var cpu := CpuUsage(inputs.cpu);
      if cpu.Err? {
        return;
      }
      cpuUsage := cpu.value;
      var fetch := GetOnlineCount(cfg, client.value, inputs.online);
      if fetch.request.Some? {
        sent := sent + [fetch.request.value];
      }
      if fetch.result.Err? {
        return;
      }
      onlineUsers := fetch.result.value as real;
      // Reading the heap size cannot fail.
      ramUsage := inputs.ram;
    }

    /** Polling for `|inputs|` ticks: one cycle per tick, in order. */
    method StartPolling(inputs: seq<CycleInputs>)
      modifies this
      ensures Snapshot() == RunCycles(cfg, old(Snapshot()), inputs).gauges
      ensures sent == old(sent) + RunCycles(cfg, old(Snapshot()), inputs).requests
    {
      for i := 0 to |inputs|
        invariant Snapshot() == RunCycles(cfg, old(Snapshot()), inputs[..i]).gauges
        invariant sent == old(sent) + RunCycles(cfg, old(Snapshot()), inputs[..i]).requests
      {
        assert inputs[..i + 1][..i] == inputs[..i];
        UpdateMetrics(inputs[i]);
      }
      assert inputs[..|inputs|] == inputs;
    }
  }
}
