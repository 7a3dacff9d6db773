/**
 What the polling loops of `upload_package` and `submit_job` compute, for
 an authenticated client holding a token: which round of gateway replies
 decides the outcome, what that outcome is, and which records the loop
 leaves in the log. Each round answers both the lifetime query and the
 status query, and a failure of either ends the loop.
 */
module JobsProperties {

  import opened Errors
  import opened ServiceLog
  import opened Client
  import opened Jobs

  /**
   A client whose status queries depend only on the gateway's replies: it
   is authenticated, holds a token (so a lifetime of 0 requests nothing),
   and, for the upload loop, the log names a package to poll.
   */
  predicate Healthy(c: Client, p: Poller) {
    && c.authenticated
    && c.token != ""
    && (p.PackagePoller? ==> LatestPackageId(c.log).Some?)
  }

  /** The identifier a status query of `p` asks about. */
  function PolledId(c: Client, p: Poller): string
    requires p.PackagePoller? ==> LatestPackageId(c.log).Some?
  {
    if p.PackagePoller? then LatestPackageId(c.log).value else p.jobId
  }

  /** A round in which the gateway grants both the token lifetime and a status: the query returns that status. */
  predicate Answers(round: Round) {
    round.lifetime.Granted? && round.status.Granted?
  }

  /** An answered round whose status is neither terminal state: polling goes on. */
  predicate Pending(p: Poller, round: Round) {
    Answers(round) && round.status.value != DoneState(p) && round.status.value != ErrorState(p)
  }

  predicate AllPending(p: Poller, rounds: seq<Round>) {
    forall j :: 0 <= j < |rounds| ==> Pending(p, rounds[j])
  }

  /** Some round answers with the given terminal state, and every round before it is pending. */
  predicate ReachedAfterPending(p: Poller, script: seq<Round>, state: string) {
    exists k :: 0 <= k < |script| && Answers(script[k]) && script[k].status.value == state && AllPending(p, script[..k])
  }

  /** The index of the first round that is not pending (the length of the script if there is none). */
  function Stop(p: Poller, script: seq<Round>): (n: nat)
    ensures n <= |script|
    ensures forall j :: 0 <= j < n ==> Pending(p, script[j])
    ensures AllPending(p, script[..n])
    ensures n < |script| ==> !Pending(p, script[n])
  {
    if |script| == 0 || !Pending(p, script[0]) then 0
    else
      var m := Stop(p, script[1..]);
      assert script[..m + 1] == [script[0]] + script[1..][..m];
      m + 1
  }

  /** The number of rounds answered with a status, hence leaving a record: the pending ones and an answered terminal one. */
  function Answered(p: Poller, script: seq<Round>): (n: nat)
    ensures n <= |script|
    ensures forall j :: 0 <= j < n ==> Answers(script[j])
    ensures forall j :: 0 <= j < n ==> script[j].status.Granted?
  {
    var k := Stop(p, script);
    if k < |script| && Answers(script[k]) then k + 1 else k
  }

  /** The records that the status queries answered in `rounds` append, in order. */
  function StatusRecords(p: Poller, id: string, rounds: seq<Round>): (rs: Log)
    requires forall j :: 0 <= j < |rounds| ==> rounds[j].status.Granted?
    ensures |rs| == |rounds|
    ensures forall j :: 0 <= j < |rounds| ==> rs[j] == StatusRecord(p, id, rounds[j].status.value)
  {
    if |rounds| == 0 then [] else [StatusRecord(p, id, rounds[0].status.value)] + StatusRecords(p, id, rounds[1..])
  }

  /** A round that is not pending, preceded only by pending ones, is the one at `Stop`. */
  lemma StopUnique(p: Poller, script: seq<Round>, k: nat)
    requires k < |script| && !Pending(p, script[k]) && AllPending(p, script[..k])
    ensures Stop(p, script) == k
  {
    var n := Stop(p, script);
    PendingAt(p, script, k, n);
    PendingAt(p, script, n, k);
  }

  lemma PendingAt(p: Poller, script: seq<Round>, n: nat, j: nat)
    requires n <= |script| && AllPending(p, script[..n])
    ensures j < n ==> Pending(p, script[j])
  {
    if j < n {
      assert script[..n][j] == script[j];
    }
  }

  /**
   A status query by a healthy client succeeds exactly when the gateway
   grants both the token lifetime and a status; it returns that status,
   appends its record, and leaves the client healthy and polling the same
   identifier. A failure leaves the log as it was.
   */
  lemma QueryHealthy(c: Client, gw: Gateway, p: Poller, round: Round)
    requires Healthy(c, p)
    ensures var q := Query(c, gw, p, round);
            && (q.result.Ok? <==> Answers(round))
            && (q.result.Ok? ==> q.result.value == round.status.value
                                 && q.client.log == Add(c.log, StatusRecord(p, PolledId(c, p), round.status.value))
                                 && Healthy(q.client, p)
                                 && PolledId(q.client, p) == PolledId(c, p))
            && (q.result.Err? ==> q.client.log == c.log && q.result.error != PollingUnfinished)
  {
    var q := Query(c, gw, p, round);
    if q.result.Ok? && p.PackagePoller? {
      var rec := StatusRecord(p, PolledId(c, p), round.status.value);
      assert q.client.log == Add(c.log, rec);
      assert MostRecent(q.client.log, "", "packageID", "") == Some(rec);
    }
  }

  /**
   The outcome of the loop for a healthy client is decided by the first
   round that is not pending: 'success' on the done state, the failure
   indicator on the error state, an exception (other than running out of
   script) when the gateway does not grant the lifetime or the status, and
   `PollingUnfinished` when every round is pending.
   */
  lemma {:induction false} PollResult(c: Client, gw: Gateway, p: Poller, script: seq<Round>)
    requires Healthy(c, p)
    ensures var k := Stop(p, script);
            var r := PollSpec(c, gw, p, script).result;
            && (k == |script| ==> r == Err(PollingUnfinished))
            && (k < |script| && Answers(script[k]) && script[k].status.value == DoneState(p) ==> r == Ok("success"))
            && (k < |script| && Answers(script[k]) && script[k].status.value == ErrorState(p) ==> r == Ok(FailureIndicator(p)))
            && (k < |script| && !Answers(script[k]) ==> r.Err? && r != Err(PollingUnfinished))
    decreases |script|
  {
    if |script| > 0 {
      QueryHealthy(c, gw, p, script[0]);
      if Pending(p, script[0]) {
        var q := Query(c, gw, p, script[0]);
        PollResult(q.client, gw, p, script[1..]);
      }
    }
  }

  /**
   The log after the loop of a healthy client: one status record for each
   round answered with a status, in order, all for the identifier polled
   at the start, and nothing else.
   */
  lemma {:induction false} PollLog(c: Client, gw: Gateway, p: Poller, script: seq<Round>)
    requires Healthy(c, p)
    ensures var n := Answered(p, script);
            PollSpec(c, gw, p, script).client.log == c.log + StatusRecords(p, PolledId(c, p), script[..n])
    decreases |script|
  {
    var n := Answered(p, script);
    var id := PolledId(c, p);
    if |script| == 0 {
      assert script[..n] == [];
    } else if !Pending(p, script[0]) {
      PollLogLast(c, gw, p, script);
    } else {
      var q := Query(c, gw, p, script[0]);
      PollPendingStep(c, gw, p, script);
      var rest := script[1..];
      PollLog(q.client, gw, p, rest);
      var m := Answered(p, rest);
      StatusRecordsCons(p, id, script, m);
    }
  }

  /** When the first round is not pending, the loop stops after one query. */
  lemma PollLogLast(c: Client, gw: Gateway, p: Poller, script: seq<Round>)
    requires Healthy(c, p) && |script| > 0 && !Pending(p, script[0])
    ensures var n := Answered(p, script);
            PollSpec(c, gw, p, script).client.log == c.log + StatusRecords(p, PolledId(c, p), script[..n])
  {
    QueryHealthy(c, gw, p, script[0]);
    var n := Answered(p, script);
    if Answers(script[0]) {
      assert script[..n] == [script[0]];
    } else {
      assert script[..n] == [];
    }
  }

  /** A pending first round: the loop continues from the client the query left, polling the same identifier. */
  lemma PollPendingStep(c: Client, gw: Gateway, p: Poller, script: seq<Round>)
    requires Healthy(c, p) && |script| > 0 && Pending(p, script[0])
    ensures var q := Query(c, gw, p, script[0]);
            && Healthy(q.client, p)
            && PolledId(q.client, p) == PolledId(c, p)
            && q.client.log == c.log + [StatusRecord(p, PolledId(c, p), script[0].status.value)]
            && PollSpec(c, gw, p, script).client == PollSpec(q.client, gw, p, script[1..]).client
            && Answered(p, script) == Answered(p, script[1..]) + 1
  {
    QueryHealthy(c, gw, p, script[0]);
  }

  lemma StatusRecordsCons(p: Poller, id: string, script: seq<Round>, m: nat)
    requires m < |script| && forall j :: 0 <= j <= m ==> script[j].status.Granted?
    ensures StatusRecords(p, id, script[..m + 1])
            == [StatusRecord(p, id, script[0].status.value)] + StatusRecords(p, id, script[1..][..m])
  {
    assert script[..m + 1][1..] == script[1..][..m];
  }

  /**
   For a healthy client the loop ends with 'success' exactly when the first
   round that is not pending grants the lifetime and reports the done state.
   */
  lemma PollSucceedsIff(c: Client, gw: Gateway, p: Poller, script: seq<Round>)
    requires Healthy(c, p)
    ensures PollSpec(c, gw, p, script).result == Ok("success") <==> ReachedAfterPending(p, script, DoneState(p))
  {
    PollResult(c, gw, p, script);
    if ReachedAfterPending(p, script, DoneState(p)) {
      var k :| 0 <= k < |script| && Answers(script[k]) && script[k].status.value == DoneState(p) && AllPending(p, script[..k]);
      StopUnique(p, script, k);
    }
  }

  /**
   For a healthy client the loop returns the failure indicator exactly
   when the first round that is not pending grants the lifetime and
   reports the error state.
   */
  lemma PollFailsIff(c: Client, gw: Gateway, p: Poller, script: seq<Round>)
    requires Healthy(c, p)
    ensures PollSpec(c, gw, p, script).result == Ok(FailureIndicator(p)) <==> ReachedAfterPending(p, script, ErrorState(p))
  {
    PollResult(c, gw, p, script);
    if ReachedAfterPending(p, script, ErrorState(p)) {
      var k :| 0 <= k < |script| && Answers(script[k]) && script[k].status.value == ErrorState(p) && AllPending(p, script[..k]);
      StopUnique(p, script, k);
    }
  }

  /**
   `upload_package(url, wait_until_done=True)` for an authenticated client
   holding a token whose lifetime can be read before the upload, when the
   gateway accepts the package: the upload is recorded, the loop polls the
   package just uploaded, and the call returns 'success' exactly when the
   transfer-done state is reported after only pending rounds, and 'Upload
   error' exactly when the upload-error state is.
   */
  lemma UploadAndWait(c: Client, gw: Gateway, packageUrl: string, script: seq<Round>)
    requires c.authenticated && c.token != "" && gw.expire.Granted? && gw.upload.Granted?
    ensures var sub := SubmitUpload(c, gw, packageUrl);
            var r := FinishSpec(sub, gw, PackagePoller, true, script).result;
            && sub.result == Ok(Record("upload_package", "packageID", gw.upload.value, "success", None))
            && LatestPackageId(sub.client.log) == Some(gw.upload.value)
            && (r == Ok((sub.result.value, Some("success"))) <==> ReachedAfterPending(PackagePoller, script, "PackageTransferDone"))
            && (r == Ok((sub.result.value, Some("Upload error"))) <==> ReachedAfterPending(PackagePoller, script, "UploadError"))
  {
    var sub := SubmitUpload(c, gw, packageUrl);
    var rec := Record("upload_package", "packageID", gw.upload.value, "success", None);
    assert sub.client.log == Add(c.log, rec);
    assert MostRecent(sub.client.log, "", "packageID", "") == Some(rec);
    assert Healthy(sub.client, PackagePoller);
    PollSucceedsIff(sub.client, gw, PackagePoller, script);
    PollFailsIff(sub.client, gw, PackagePoller, script);
  }

  /**
   `submit_job(..., wait_until_done=True)` for an authenticated client
   holding a token whose lifetime can be read before the submission, with a job definition the
   client can build and a submission the gateway accepts: the job is
   recorded, and the call returns 'success' exactly when the job reports
   its output transferred after only pending rounds, and 'Run job error'
   exactly when it reports the job error state.
   */
  lemma SubmitAndWait(c: Client, gw: Gateway, packageId: string, program: string, inputRaster: Option<string>,
                      kwargs: map<string, string>, script: seq<Round>)
    requires c.authenticated && c.token != "" && gw.expire.Granted? && gw.submit.Granted?
    requires JobDefinitionFor(program, inputRaster, kwargs).Ok?
    ensures var sub := SubmitJobRequest(c, gw, packageId, program, inputRaster, kwargs);
            var p := JobPoller(gw.submit.value.0);
            var r := FinishSpec(sub, gw, p, true, script).result;
            && sub.result.Ok? && sub.result.value.idValue == gw.submit.value.0
            && (r == Ok((sub.result.value, Some("success"))) <==> ReachedAfterPending(p, script, "JobOutputFileTransferDone"))
            && (r == Ok((sub.result.value, Some("Run job error"))) <==> ReachedAfterPending(p, script, "JobError"))
  {
    var sub := SubmitJobRequest(c, gw, packageId, program, inputRaster, kwargs);
    var p := JobPoller(gw.submit.value.0);
    assert Healthy(sub.client, p);
    PollSucceedsIff(sub.client, gw, p, script);
    PollFailsIff(sub.client, gw, p, script);
  }
}
