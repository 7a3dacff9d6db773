/**
 Package upload and job submission on the HydroGate gateway, and the
 polling loops that `upload_package` and `submit_job` run when asked to
 wait until done. Every status query of a loop first asks the gateway for
 the token's remaining lifetime and then for the status, so the remote
 replies are a finite script of rounds, one (lifetime, status) pair per
 query; a script that runs out before a terminal state is reported as
 `PollingUnfinished` (the source would keep polling).
 */
module Jobs {

  import opened Errors
  import opened ServiceLog
  import opened Client

  /** Which remote state machine is being polled: the most recent package upload, or a given job. */
  datatype Poller = PackagePoller | JobPoller(jobId: string)

  /** The status that ends polling with success. */
  function DoneState(p: Poller): string {
    if p.PackagePoller? then "PackageTransferDone" else "JobOutputFileTransferDone"
  }

  /** The status that ends polling with the failure indicator. */
  function ErrorState(p: Poller): string {
    if p.PackagePoller? then "UploadError" else "JobError"
  }

  /** The indicator returned (not raised) when the remote state machine reports its error state. */
  function FailureIndicator(p: Poller): string {
    if p.PackagePoller? then "Upload error" else "Run job error"
  }

  /** The record a successful status query appends. */
  function StatusRecord(p: Poller, id: string, status: string): Record {
    if p.PackagePoller? then Record("retrieve_package_upload_status", "packageID", id, status, None)
    else Record("retrieve_job_status", "jobID", id, status, None)
  }

  /** The package id `get_upload_status()` falls back to: that of the newest record with a 'packageID' identifier. */
  function LatestPackageId(log: Log): (r: Option<string>)
    ensures r.Some? <==> exists i :: 0 <= i < |log| && log[i].idName == "packageID"
    ensures r.Some? ==> exists i :: && 0 <= i < |log| && log[i].idName == "packageID" && r.value == log[i].idValue
                                    && forall j :: i < j < |log| ==> log[j].idName != "packageID"
  {
    var m := MostRecent(log, "", "packageID", "");
    if m.Some? then Some(m.value.idValue) else None
  }

  /**
   `get_upload_status(package_id)`. Without an id, the newest 'packageID'
   record supplies it, and None is returned when there is none. Otherwise
   the token is refreshed, the status is queried, and the reported state
   is appended to the log as a new record, which is saved and returned.
   An absent `packageId` is the empty string.
   */
  function UploadStatus(c: Client, gw: Gateway, packageId: string, reply: Reply<string>): (s: Step<Option<Record>>)
    ensures packageId == "" && LatestPackageId(c.log).None? ==> s == Step(c, Ok(None), [])
    ensures s.result.Ok? && s.result.value.Some? ==>
              var id := if packageId != "" then packageId else LatestPackageId(c.log).value;
              && reply.Granted?
              && s.result.value.value == StatusRecord(PackagePoller, id, reply.value)
              && s.client.log == Add(c.log, s.result.value.value)
    ensures s.result.Err? ==> s.client.log == c.log
  {
    if packageId == "" && LatestPackageId(c.log).None? then Step(c, Ok(None), [])
    else
      var id := if packageId != "" then packageId else LatestPackageId(c.log).value;
      var e := EnsureToken(c, gw);
      if e.result.Err? then Step(e.client, Err(e.result.error), e.sent)
      else
        var sent := e.sent + [QueryPackageStatus(id)];
        match reply
        case HttpFailure(reason, content) =>
          Step(e.client, Err(GenericError("Hydrogate error." + reason + " " + content)), sent)
        case Refused(d) => Step(e.client, Err(GenericError("Hydrogate error:" + d)), sent)
        case Granted(state) =>
          var rec := StatusRecord(PackagePoller, id, state);
          Step(Record1(e.client, rec), Ok(Some(rec)), sent)
  }

  /**
   `get_job_status(job_id)`: raises unless authenticated; refreshes the
   token, queries the job state, appends it to the log as a new record,
   saves the log and returns the state.
   */
  function JobStatus(c: Client, gw: Gateway, jobId: string, reply: Reply<string>): (s: Step<string>)
    ensures !c.authenticated ==> s.result.Err? && s.sent == [] && s.client == c
    ensures s.result.Ok? ==> reply.Granted? && s.result.value == reply.value
                             && s.client.log == Add(c.log, StatusRecord(JobPoller(jobId), jobId, reply.value))
    ensures s.result.Err? ==> s.client.log == c.log
  {
    if !c.authenticated then Step(c, Err(GenericError("You first need to get authenticated to HPC.")), [])
    else
      var e := RefreshIfExpired(c, gw);
      if e.result.Err? then Step(e.client, Err(e.result.error), e.sent)
      else
        var sent := e.sent + [QueryJobStatus(jobId)];
        match reply
        case HttpFailure(reason, content) =>
          Step(e.client, Err(GenericError("Hydrogate error." + reason + " " + content)), sent)
        case Refused(d) => Step(e.client, Err(GenericError("Hydrogate error:" + d)), sent)
        case Granted(state) =>
          Step(Record1(e.client, StatusRecord(JobPoller(jobId), jobId, state)), Ok(state), sent)
  }

  /** The gateway's answers to one status query of a loop: the token lifetime it reports, then the status. */
  datatype Round = Round(lifetime: Reply<int>, status: Reply<string>)

  /**
   One status query of a polling loop, yielding the observed state. The
   gateway answers the lifetime query of the token refresh with the
   round's lifetime reply. The upload loop reads `.service_status` of what
   `get_upload_status()` returns, which raises `AttributeError` should
   that be None.
   */
  function Query(c: Client, gw: Gateway, p: Poller, round: Round): (s: Step<string>)
  {
    var g := gw.(expire := round.lifetime);
    match p
    case PackagePoller =>
      var u := UploadStatus(c, g, "", round.status);
      (match u.result
       case Err(e) => Step(u.client, Err(e), u.sent)
       case Ok(None) => Step(u.client, Err(AttributeError("'NoneType' object has no attribute 'service_status'")), u.sent)
       case Ok(Some(r)) => Step(u.client, Ok(r.status), u.sent))
    case JobPoller(id) => JobStatus(c, g, id, round.status)
  }

  /**
   The polling loop as a recursive definition: query, stop with 'success'
   on the done state, stop with the failure indicator on the error state,
   otherwise query again with the next scripted round. An exception from a
   query ends the loop and propagates.
   */
  function PollSpec(c: Client, gw: Gateway, p: Poller, script: seq<Round>): Step<string>
    decreases |script|
  {
    if |script| == 0 then Step(c, Err(PollingUnfinished), [])
    else
      var q := Query(c, gw, p, script[0]);
      if q.result.Err? then q
      else if q.result.value == DoneState(p) then Step(q.client, Ok("success"), q.sent)
      else if q.result.value == ErrorState(p) then Step(q.client, Ok(FailureIndicator(p)), q.sent)
      else
        var rest := PollSpec(q.client, gw, p, script[1..]);
        Step(rest.client, rest.result, q.sent + rest.sent)
  }

  function Prepend<T>(sent: seq<Call>, s: Step<T>): Step<T> {
    Step(s.client, s.result, sent + s.sent)
  }

  /** What the loop still does once it has observed `status`, with the rounds `rest` still to come. */
  function AfterObserved(cur: Client, gw: Gateway, p: Poller, rest: seq<Round>, status: string): Step<string> {
    if status == DoneState(p) then Step(cur, Ok("success"), [])
    else if status == ErrorState(p) then Step(cur, Ok(FailureIndicator(p)), [])
    else PollSpec(cur, gw, p, rest)
  }

  /**
   The `while` loops of `upload_package` and `submit_job` with
   `wait_until_done`: the first query, then the loop from the state it
   observed.
   */
  method Poll(c: Client, gw: Gateway, p: Poller, script: seq<Round>) returns (s: Step<string>)
    ensures s == PollSpec(c, gw, p, script)
  {
    if |script| == 0 {
      return Step(c, Err(PollingUnfinished), []);
    }
    var q := Query(c, gw, p, script[0]);
    if q.result.Err? {
      return q;
    }
    var rest := WaitLoop(q.client, gw, p, script[1..], q.result.value);
    return Prepend(q.sent, rest);
  }

  /**
   The loop itself: while the observed state is not the done state,
   return the failure indicator on the error state or query again with
   the next round.
   */
  method WaitLoop(c: Client, gw: Gateway, p: Poller, script: seq<Round>, observed: string) returns (s: Step<string>)
    ensures s == AfterObserved(c, gw, p, script, observed)
  {
    var status := observed;
    var cur := c;
    var sent := [];
    var rest := script;
    while status != DoneState(p)
      invariant AfterObserved(c, gw, p, script, observed) == Prepend(sent, AfterObserved(cur, gw, p, rest, status))
      decreases |rest|
    {
      if status == ErrorState(p) {
        return Step(cur, Ok(FailureIndicator(p)), sent);
      }
      if |rest| == 0 {
        return Step(cur, Err(PollingUnfinished), sent);
      }
      var q := NextQuery(cur, gw, p, rest, status);
      if q.result.Err? {
        return Step(q.client, q.result, sent + q.sent);
      }
      sent := sent + q.sent;
      status := q.result.value;
      cur := q.client;
      rest := rest[1..];
    }
    return Step(cur, Ok("success"), sent);
  }

  /** One more query after a pending state: an exception ends the loop, otherwise it goes on from the new state. */
  method NextQuery(cur: Client, gw: Gateway, p: Poller, rest: seq<Round>, status: string) returns (q: Step<string>)
    requires |rest| > 0 && status != DoneState(p) && status != ErrorState(p)
    ensures q == Query(cur, gw, p, rest[0])
    ensures q.result.Err? ==> AfterObserved(cur, gw, p, rest, status) == q
    ensures q.result.Ok? ==>
              AfterObserved(cur, gw, p, rest, status) == Prepend(q.sent, AfterObserved(q.client, gw, p, rest[1..], q.result.value))
  {
    q := Query(cur, gw, p, rest[0]);
  }

  // ---------------------------------------------------------------------
  // Submissions
  // ---------------------------------------------------------------------

  /**
   The upload request of `upload_package`: raises unless authenticated,
   refreshes the token, posts the package URL with the default HPC, and on
   success appends and saves an 'upload_package' record carrying the new
   package id.
   */
  function SubmitUpload(c: Client, gw: Gateway, packageUrl: string): (s: Step<Record>)
    ensures !c.authenticated ==> s.result.Err? && s.sent == [] && s.client == c
    ensures s.result.Ok? <==>
              c.authenticated && EnsureToken(c, gw).result.Ok? && gw.upload.Granted?
    ensures s.result.Ok? ==>
              && s.result.value == Record("upload_package", "packageID", gw.upload.value, "success", None)
              && s.client.log == Add(c.log, s.result.value)
              && s.client.token == EnsureToken(c, gw).client.token
              && s.sent == EnsureToken(c, gw).sent + [PostPackage(packageUrl, c.defaultHpc)]
    ensures s.result.Err? ==> s.client.log == c.log
  {
    if !c.authenticated then Step(c, Err(GenericError("You first need to get authenticated to HPC.")), [])
    else
      var e := EnsureToken(c, gw);
      if e.result.Err? then Step(e.client, Err(e.result.error), e.sent)
      else
        var sent := e.sent + [PostPackage(packageUrl, e.client.defaultHpc)];
        match gw.upload
        case HttpFailure(reason, content) =>
          Step(e.client, Err(GenericError("Hydrogate error. " + reason + " " + content)), sent)
        case Refused(d) =>
          Step(e.client, Err(GenericError("Hydrogate error: package uploading failed:" + d)), sent)
        case Granted(packageId) =>
          var rec := Record("upload_package", "packageID", packageId, "success", None);
          Step(Record1(e.client, rec), Ok(rec), sent)
  }

  /**
   The default HPC is where uploads go: after `set_default_hpc(hpc)`, a
   successful `upload_package` posts the package to that HPC as its last
   request.
   */
  lemma DefaultHpcUsedByUpload(c: Client, hpc: string, gw: Gateway, packageUrl: string)
    requires SetDefaultHpc(c, hpc).Ok?
    requires c.authenticated && EnsureToken(c, gw).result.Ok? && gw.upload.Granted?
    ensures var s := SubmitUpload(SetDefaultHpc(c, hpc).value, gw, packageUrl);
            s.result.Ok? && s.sent[|s.sent| - 1] == PostPackage(packageUrl, hpc)
  {
  }

  /**
   The job definition `submit_job` sends: the keyword arguments when there
   are any; otherwise the built-in definition of 'pitremove' (which needs
   an input raster) or 'ueb'; any other program raises.
   */
  function JobDefinitionFor(program: string, inputRaster: Option<string>, kwargs: map<string, string>): (r: Result<JobDefinition>)
    ensures |kwargs| > 0 ==> r == Ok(CustomJob(kwargs))
    ensures |kwargs| == 0 ==> (r.Ok? <==> (program == "pitremove" && inputRaster.Some?) || program == "ueb")
    ensures r.Ok? && |kwargs| == 0 ==> r.value.StandardJob? && r.value.program == program
    ensures r.Ok? && |kwargs| == 0 && program == "pitremove" ==>
              r.value.parameters == map["z" := inputRaster.value, "fel" := "feloutput.tif"]
    ensures r.Err? ==> r.error.GenericError?
  {
    if |kwargs| > 0 then Ok(CustomJob(kwargs))
    else if program == "pitremove" then
      if inputRaster.None? then
        Err(GenericError("A value for paramter input_raster_file_name is needed for running pitremove"))
      else
        Ok(StandardJob("pitremove", "00:00:50", ["fel*.tif"], map["z" := inputRaster.value, "fel" := "feloutput.tif"]))
    else if program == "ueb" then
      Ok(StandardJob("ueb", "00:59:50", ["SWE.nc", "aggout.nc", "SWIT.nc", "SWISM.nc"], map[]))
    else Err(GenericError("Program " + program + " is not supported."))
  }

  /**
   The submission request of `submit_job`: raises unless authenticated,
   refreshes the token, builds the job definition, posts it, and on success
   appends and saves a 'submit_job' record with the job id and output path.
   */
  function SubmitJobRequest(c: Client, gw: Gateway, packageId: string, program: string,
                            inputRaster: Option<string>, kwargs: map<string, string>): (s: Step<Record>)
    ensures !c.authenticated ==> s.result.Err? && s.sent == [] && s.client == c
    ensures s.result.Ok? <==>
              && c.authenticated
              && RefreshIfExpired(c, gw).result.Ok?
              && JobDefinitionFor(program, inputRaster, kwargs).Ok?
              && gw.submit.Granted?
    ensures s.result.Ok? ==>
              && s.result.value == Record("submit_job", "jobID", gw.submit.value.0, "success", Some(gw.submit.value.1))
              && s.client.log == Add(c.log, s.result.value)
              && s.client.token == RefreshIfExpired(c, gw).client.token
              && s.sent == RefreshIfExpired(c, gw).sent
                           + [PostJob(packageId, JobDefinitionFor(program, inputRaster, kwargs).value)]
    ensures s.result.Err? ==> s.client.log == c.log
  {
    if !c.authenticated then Step(c, Err(GenericError("You first need to get authenticated to HPC.")), [])
    else
      var e := RefreshIfExpired(c, gw);
      if e.result.Err? then Step(e.client, Err(e.result.error), e.sent)
      else
        match JobDefinitionFor(program, inputRaster, kwargs)
        case Err(err) => Step(e.client, Err(err), e.sent)
        case Ok(def) =>
          var sent := e.sent + [PostJob(packageId, def)];
          match gw.submit
          case HttpFailure(reason, content) =>
            Step(e.client, Err(GenericError("Hydrogate error. " + reason + " " + content)), sent)
          case Refused(d) => Step(e.client, Err(GenericError("Hydrogate error:" + d)), sent)
          case Granted((jobId, outputPath)) =>
            var rec := Record("submit_job", "jobID", jobId, "success", Some(outputPath));
            Step(Record1(e.client, rec), Ok(rec), sent)
  }

  /**
   Whatever the gateway answers, a submission that gets as far as posting
   sends the job definition `JobDefinitionFor` builds, for the package
   given, as its last request.
   */
  lemma SubmissionCarriesDefinition(c: Client, gw: Gateway, packageId: string, program: string,
                                    inputRaster: Option<string>, kwargs: map<string, string>)
    requires c.authenticated && RefreshIfExpired(c, gw).result.Ok?
    requires JobDefinitionFor(program, inputRaster, kwargs).Ok?
    ensures SubmitJobRequest(c, gw, packageId, program, inputRaster, kwargs).sent
            == RefreshIfExpired(c, gw).sent + [PostJob(packageId, JobDefinitionFor(program, inputRaster, kwargs).value)]
  {
  }

  /** The submission followed, when waiting, by the polling loop: the submission record paired with None, 'success' or the failure indicator. */
  function FinishSpec(sub: Step<Record>, gw: Gateway, p: Poller, wait: bool, script: seq<Round>): Step<(Record, Option<string>)>
  {
    match sub.result
    case Err(e) => Step(sub.client, Err(e), sub.sent)
    case Ok(rec) =>
      if !wait then Step(sub.client, Ok((rec, None)), sub.sent)
      else
        var q := PollSpec(sub.client, gw, p, script);
        Step(q.client, if q.result.Ok? then Ok((rec, Some(q.result.value))) else Err(q.result.error), sub.sent + q.sent)
  }

  /** `upload_package(package_file_url_path, wait_until_done)` */
  method UploadPackage(c: Client, gw: Gateway, packageUrl: string, wait: bool, script: seq<Round>)
    returns (s: Step<(Record, Option<string>)>)
    ensures s == FinishSpec(SubmitUpload(c, gw, packageUrl), gw, PackagePoller, wait, script)
  {
    var sub := SubmitUpload(c, gw, packageUrl);
    if sub.result.Err? {
      return Step(sub.client, Err(sub.result.error), sub.sent);
    }
    var rec := sub.result.value;
    if !wait {
      return Step(sub.client, Ok((rec, None)), sub.sent);
    }
    var q := Poll(sub.client, gw, PackagePoller, script);
    if q.result.Err? {
      return Step(q.client, Err(q.result.error), sub.sent + q.sent);
    }
    return Step(q.client, Ok((rec, Some(q.result.value))), sub.sent + q.sent);
  }

  /** `submit_job(package_id, program_name, input_raster_file_name, wait_until_done, **kwargs)` */
  method SubmitJob(c: Client, gw: Gateway, packageId: string, program: string, inputRaster: Option<string>,
                   kwargs: map<string, string>, wait: bool, script: seq<Round>)
    returns (s: Step<(Record, Option<string>)>)
    ensures var sub := SubmitJobRequest(c, gw, packageId, program, inputRaster, kwargs);
            s == FinishSpec(sub, gw, if sub.result.Ok? then JobPoller(sub.result.value.idValue) else PackagePoller, wait, script)
  {
    var sub := SubmitJobRequest(c, gw, packageId, program, inputRaster, kwargs);
    if sub.result.Err? {
      return Step(sub.client, Err(sub.result.error), sub.sent);
    }
    var rec := sub.result.value;
    if !wait {
      return Step(sub.client, Ok((rec, None)), sub.sent);
    }
    var q := Poll(sub.client, gw, JobPoller(rec.idValue), script);
    if q.result.Err? {
      return Step(q.client, Err(q.result.error), sub.sent + q.sent);
    }
    return Step(q.client, Ok((rec, Some(q.result.value))), sub.sent + q.sent);
  }
}
