/**
 The state of one HydroDS client and its HydroGate authentication:
 credentials, the cached bearer token, the authenticated flag, the default
 HPC resource, and the request log with its stored copy. The remote
 HydroGate gateway is a set of canned replies; every operation reports the
 requests it sent, so that "no request is issued" can be stated.
 */
module Client {

  import opened Errors
  import opened ServiceLog

  /** A HydroGate reply: a non-200 HTTP status, a 200 reply whose `status` is not 'success' (with its `description`), or a granted value. */
  datatype Reply<+T> = HttpFailure(reason: string, content: string) | Refused(description: string) | Granted(value: T)

  /**
   The job definition sent with `submit_job`: either the caller's keyword
   arguments as given, or one of the built-in definitions (program,
   wall time, output file patterns, program parameters).
   */
  datatype JobDefinition =
    | CustomJob(arguments: map<string, string>)
    | StandardJob(program: string, walltime: string, outputs: seq<string>, parameters: map<string, string>)

  /** The requests the client sends to HydroGate, with the payload fields the model tracks. */
  datatype Call =
    | RequestToken
    | QueryExpireTime
    | PostPackage(package: string, hpc: string)
    | QueryPackageStatus(packageId: string)
    | PostJob(packageId: string, definition: JobDefinition)
    | QueryJobStatus(jobId: string)

  /**
   The gateway's replies to the token request, the token-lifetime query
   (remaining seconds), the package upload (package id) and the job
   submission (job id and output path). Status replies come from a
   separate script, one per query.
   */
  datatype Gateway = Gateway(
    token: Reply<string>,
    expire: Reply<int>,
    upload: Reply<string>,
    submit: Reply<(string, string)>)

  /**
   The client: `_hg_username`, `_hg_password`, `_hg_token` (the empty
   string for no token; only its truthiness is ever tested),
   `_user_hg_authenticated`, `_default_hpc`, and the log with its file.
   */
  datatype Client = Client(
    username: string,
    password: string,
    token: string,
    authenticated: bool,
    defaultHpc: string,
    log: Log,
    disk: Disk)

  /** What a client operation leaves behind: the new state, the value returned or exception raised, and the requests sent in order. */
  datatype Step<+T> = Step(client: Client, result: Result<T>, sent: seq<Call>)

  /** `get_available_hpc()` */
  const AvailableHpc: seq<string> := ["USU", "HydrogateHPC"]

  /** `HydroDS.__init__`: no credentials, no token, not authenticated, HPC 'USU', and the stored log loaded when memory holds none. */
  function NewClient(log: Log, disk: Disk): (c: Client)
    ensures !c.authenticated && c.token == "" && c.defaultHpc == "USU"
    ensures |log| == 0 && disk.Some? ==> c.log == disk.value
    ensures |log| > 0 ==> c.log == log
    ensures c.disk == disk
  {
    Client("", "", "", false, "USU", Load(log, disk), disk)
  }

  /** `save_service_call_history`: the whole log is written to the file. */
  function Persist(c: Client): (c': Client)
    ensures c'.log == c.log && c'.disk == Save(c.log, c.disk)
    ensures c'.token == c.token && c'.authenticated == c.authenticated && c'.defaultHpc == c.defaultHpc
  {
    c.(disk := Save(c.log, c.disk))
  }

  /** Appending one record to the log and saving it. */
  function Record1(c: Client, r: Record): (c': Client)
    ensures c'.log == Add(c.log, r) && c'.disk == Some(c'.log)
    ensures c'.token == c.token && c'.authenticated == c.authenticated && c'.defaultHpc == c.defaultHpc
    ensures c'.username == c.username && c'.password == c.password
  {
    Persist(c.(log := Add(c.log, r)))
  }

  /** `_check_user_hpc_authentication` */
  function CheckAuthenticated(c: Client): (r: Check)
    ensures r.Pass? <==> c.authenticated
    ensures r.Fail? ==> r.error.GenericError?
  {
    Need(c.authenticated, GenericError("You first need to get authenticated to HPC."))
  }

  /**
   `_get_token`: a cached token is returned at once and nothing is sent;
   otherwise the token is requested and cached on success.
   */
  function GetToken(c: Client, gw: Gateway): (s: Step<string>)
    ensures c.token != "" ==> s == Step(c, Ok(c.token), [])
    ensures c.token == "" ==> s.sent == [RequestToken]
    ensures s.result.Ok? <==> c.token != "" || gw.token.Granted?
    ensures c.token == "" && gw.token.Granted? ==> s.client == c.(token := gw.token.value)
    ensures s.result.Err? ==> s.client == c && s.result.error.GenericError?
  {
    if c.token != "" then Step(c, Ok(c.token), [])
    else
      match gw.token
      case HttpFailure(_, _) => Step(c, Err(GenericError("HydroGate connection error.")), [RequestToken])
      case Refused(d) => Step(c, Err(GenericError("Hydrogate error:" + d)), [RequestToken])
      case Granted(t) => Step(c.(token := t), Ok(t), [RequestToken])
  }

  /**
   `_get_token_expire_time`: raises unless authenticated; 0 without any
   request when there is no token; otherwise the remaining lifetime the
   gateway reports.
   */
  function ExpireTime(c: Client, gw: Gateway): (s: Step<int>)
    ensures s.client == c
    ensures !c.authenticated ==> s.result.Err? && s.sent == []
    ensures c.authenticated && c.token == "" ==> s.result == Ok(0) && s.sent == []
    ensures c.authenticated && c.token != "" ==> s.sent == [QueryExpireTime]
    ensures s.result.Ok? <==> c.authenticated && (c.token == "" || gw.expire.Granted?)
    ensures c.authenticated && c.token != "" && gw.expire.Granted? ==> s.result == Ok(gw.expire.value)
  {
    if !c.authenticated then Step(c, Err(GenericError("You first need to get authenticated to HPC.")), [])
    else if c.token == "" then Step(c, Ok(0), [])
    else
      match gw.expire
      case HttpFailure(_, _) => Step(c, Err(GenericError("Hydrogate connection error.")), [QueryExpireTime])
      case Refused(d) => Step(c, Err(GenericError("Hydrogate error: " + d)), [QueryExpireTime])
      case Granted(n) => Step(c, Ok(n), [QueryExpireTime])
  }

  /** Forgets the value of a result, keeping its exception. */
  function Discard<T>(r: Result<T>): (u: Result<()>)
    ensures u.Ok? <==> r.Ok?
    ensures r.Err? ==> u.error == r.error
  {
    if r.Ok? then Ok(()) else Err(r.error)
  }

  /**
   The token refresh in front of `upload_package` and
   `get_upload_status`: request a token when none is cached; otherwise ask
   for its lifetime and call `_get_token` again when it is 0 (which, the
   token being cached, sends nothing).
   */
  function EnsureToken(c: Client, gw: Gateway): (s: Step<()>)
    ensures c.token == "" ==> s.sent == [RequestToken]
    ensures c.token != "" && c.authenticated ==> s.sent == [QueryExpireTime] && s.client == c
    ensures c.token != "" && !c.authenticated ==> s == Step(c, Err(GenericError("You first need to get authenticated to HPC.")), [])
    ensures s.result.Ok? <==> (if c.token == "" then gw.token.Granted? else c.authenticated && gw.expire.Granted?)
    ensures c.token == "" && gw.token.Granted? ==> s.client == c.(token := gw.token.value)
    ensures c.token != "" ==> s.client == c
  {
    if c.token == "" then
      var g := GetToken(c, gw);
      Step(g.client, Discard(g.result), g.sent)
    else
      var e := ExpireTime(c, gw);
      match e.result
      case Err(err) => Step(e.client, Err(err), e.sent)
      case Ok(n) =>
        if n == 0 then
          var g := GetToken(e.client, gw);
          Step(g.client, Discard(g.result), e.sent + g.sent)
        else Step(e.client, Ok(()), e.sent)
  }

  /**
   The token refresh in front of `submit_job` and `get_job_status`: when
   `_get_token_expire_time()` is 0 (also when no token is cached), call
   `_get_token`.
   */
  function RefreshIfExpired(c: Client, gw: Gateway): (s: Step<()>)
    ensures !c.authenticated ==> s.result.Err? && s.sent == [] && s.client == c
    ensures s.result.Ok? <==>
              c.authenticated && (if c.token == "" then gw.token.Granted? else gw.expire.Granted?)
    ensures c.authenticated && c.token == "" ==> s.sent == [RequestToken]
    ensures c.authenticated && c.token == "" && gw.token.Granted? ==> s.client == c.(token := gw.token.value)
    ensures c.authenticated && c.token != "" ==> s.sent == [QueryExpireTime] && s.client == c
  {
    var e := ExpireTime(c, gw);
    match e.result
    case Err(err) => Step(e.client, Err(err), e.sent)
    case Ok(n) =>
      if n == 0 then
        var g := GetToken(e.client, gw);
        Step(g.client, Discard(g.result), e.sent + g.sent)
      else Step(e.client, Ok(()), e.sent)
  }

  /** For an authenticated client the two refresh patterns behave alike. */
  lemma RefreshPatternsAgree(c: Client, gw: Gateway)
    requires c.authenticated
    ensures EnsureToken(c, gw) == RefreshIfExpired(c, gw)
  {
  }

  /**
   A cached token is never re-requested, even when the gateway reports a
   remaining lifetime of 0: only the lifetime query is sent and the token
   stays as it was.
   */
  lemma ExpiredCachedTokenKept(c: Client, gw: Gateway)
    requires c.authenticated && c.token != "" && gw.expire == Granted(0)
    ensures EnsureToken(c, gw) == Step(c, Ok(()), [QueryExpireTime])
    ensures RefreshIfExpired(c, gw) == Step(c, Ok(()), [QueryExpireTime])
  {
  }

  /** With no cached token, exactly one token request is sent before anything else. */
  lemma MissingTokenRequested(c: Client, gw: Gateway)
    requires c.authenticated && c.token == ""
    ensures EnsureToken(c, gw).sent == [RequestToken]
    ensures RefreshIfExpired(c, gw).sent == [RequestToken]
  {
  }

  /**
   `hydrogate_authenticate(username, password, hpc)`. An HPC outside
   `get_available_hpc()` raises NotAuthenticated and changes nothing. For a
   supported HPC the token and the authenticated flag are cleared and the
   credentials stored first; then a token is requested. Only if that
   succeeds is the client marked authenticated and the HPC made the
   default; any failure is re-raised as NotAuthenticated.
   */
  function Authenticate(c: Client, gw: Gateway, username: string, password: string, hpc: string): (s: Step<()>)
    ensures hpc !in AvailableHpc ==> s.client == c && s.sent == [] && s.result.Err? && s.result.error.NotAuthenticated?
    ensures hpc in AvailableHpc ==> s.sent == [RequestToken]
    ensures hpc in AvailableHpc ==> s.client.username == username && s.client.password == password
    ensures hpc in AvailableHpc ==> (s.result.Ok? <==> gw.token.Granted?)
    ensures s.result.Ok? ==>
              s.client.authenticated && s.client.token == gw.token.value && s.client.defaultHpc == hpc
    ensures s.result.Err? ==> s.result.error.NotAuthenticated?
    ensures hpc in AvailableHpc && s.result.Err? ==>
              !s.client.authenticated && s.client.token == "" && s.client.defaultHpc == c.defaultHpc
    ensures s.client.log == c.log && s.client.disk == c.disk
  {
    if hpc in AvailableHpc then
      var cleared := c.(token := "", authenticated := false, username := username, password := password);
      var g := GetToken(cleared, gw);
      if g.result.Ok? then
        Step(g.client.(authenticated := true, defaultHpc := hpc), Ok(()), g.sent)
      else
        Step(g.client, Err(NotAuthenticated("User authentication failed for HPC:" + hpc)), g.sent)
    else
      Step(c, Err(NotAuthenticated("User authentication for HPC failed. Provided HPC (" + hpc + ") is not supported.")), [])
  }

  /** `set_default_hpc(hpc)`: a supported HPC becomes the default; any other raises an argument exception and changes nothing. */
  function SetDefaultHpc(c: Client, hpc: string): (r: Result<Client>)
    ensures r.Ok? <==> hpc in AvailableHpc
    ensures r.Ok? ==> r.value == c.(defaultHpc := hpc)
    ensures r.Err? ==> r.error.ArgumentError?
  {
    if hpc in AvailableHpc then Ok(c.(defaultHpc := hpc))
    else Err(ArgumentError(hpc + " invalid hpc resource."))
  }

  /** Re-authenticating invalidates the old token whatever the outcome: the client never keeps it. */
  lemma ReauthenticationDropsOldToken(c: Client, gw: Gateway, username: string, password: string, hpc: string)
    requires hpc in AvailableHpc
    requires c.token != "" && (gw.token.Granted? ==> gw.token.value != c.token)
    ensures Authenticate(c, gw, username, password, hpc).client.token != c.token
  {
  }
}
