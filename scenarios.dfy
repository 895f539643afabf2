/** Client-side scenarios: what a caller can conclude from the clients' contracts alone,
    driving them against a transport with canned responses. */
module Scenarios {
  import opened Wrappers
  import opened Net
  import opened Wire
  import opened AsynchSearch
  import opened SynchSearch

  const Server: string := "https://splunk:8089"
  const LoginDoc: string := "<response><sessionKey>TOK123</sessionKey></response>"
  const SubmitDoc: string := "<response><sid>job-42</sid></response>"
  const NotDoneDoc: string := "isDone\">0"
  const DoneDoc: string := "isDone\">1"

  /** The canned status documents poll as "0" and "1". */
  lemma StatusDocs()
    ensures PollOutcome(Some(NotDoneDoc)) == Ok("0")
    ensures PollOutcome(Some(DoneDoc)) == Ok("1")
  {
  }

  /** A fresh asynchronous client, logged in and with a submitted job, over a transport
      whose first two responses are the login and submission documents. */
  method LoggedInJob(lib: Library, net: Transport) returns (job: SplunkAsynchSearch, token: Result<string>, sid: Result<string>)
    requires lib.firstText(LoginDoc, "sessionKey") == Some("TOK123")
    requires lib.firstText(SubmitDoc, "sid") == Some("job-42")
    requires |net.responses| >= 2 && net.responses[0] == Some(LoginDoc) && net.responses[1] == Some(SubmitDoc)
    modifies net
    ensures fresh(job) && job.Valid() && job.lib == lib
    ensures token == Ok("TOK123") && sid == Ok("job-42")
    ensures job.sessionKey == "TOK123" && job.jobSid == Some("job-42") && job.jobStatus == None
    ensures job.searchJobsUri == Some(DefaultSearchJobsUri)
    ensures net.responses == old(net.responses)[2..] && |net.log| == |old(net.log)| + 2
  {
    job := new SplunkAsynchSearch(Server, "admin", "changeme", "", "", "* | stats count", lib);
    token := job.GetSessionToken(net);
    assert job.sessionKey == "TOK123";
    assert Truthy(job.searchQuery);
    sid := job.SubmitAsynchSearch(net);
  }

  /** Before a session key exists, submitting, polling and fetching all raise and no
      request reaches the transport. */
  method CallsBeforeLogin(lib: Library) returns (submit: Result<string>, poll: Result<string>,
                                                  fetch: Result<Option<string>>, requests: nat)
    ensures submit == Raised && poll == Raised && fetch == Raised
    ensures requests == 0
  {
    var net := new Transport([Some(SubmitDoc), Some(DoneDoc)]);
    var job := new SplunkAsynchSearch(Server, "admin", "changeme", "", "", "* | stats count", lib);
    submit := job.SubmitAsynchSearch(net);
    poll := job.GetJobStatus(net);
    fetch := job.GetJobResults("json", net);
    requests := |net.log|;
  }

  /** A status answered "0", "0", "1" is reported as such by three polls; a fourth poll
      answers "1" from the cache, so the transport still saw three status requests
      (after the login and the submission). */
  method StatusCaching(lib: Library) returns (statuses: seq<Result<string>>, requests: nat)
    requires lib.firstText(LoginDoc, "sessionKey") == Some("TOK123")
    requires lib.firstText(SubmitDoc, "sid") == Some("job-42")
    ensures statuses == [Ok("0"), Ok("0"), Ok("1"), Ok("1")]
    ensures requests == 2 + 3
  {
    StatusDocs();
    var net := new Transport([Some(LoginDoc), Some(SubmitDoc), Some(NotDoneDoc), Some(NotDoneDoc), Some(DoneDoc)]);
    var job, _, _ := LoggedInJob(lib, net);
    assert net.responses == [Some(NotDoneDoc), Some(NotDoneDoc), Some(DoneDoc)] && |net.log| == 2;
    var s1 := job.GetJobStatus(net);
    assert s1 == Ok("0") && net.responses == [Some(NotDoneDoc), Some(DoneDoc)];
    var s2 := job.GetJobStatus(net);
    assert s2 == Ok("0") && net.responses == [Some(DoneDoc)];
    var s3 := job.GetJobStatus(net);
    assert s3 == Ok("1") && |net.log| == 5;
    var s4 := job.GetJobStatus(net);
    statuses := [s1, s2, s3, s4];
    requests := |net.log|;
  }

  /** A poll whose request fails raises and keeps the cached "0"; the next poll asks
      again and picks up "1". */
  method FailedPollThenDone(lib: Library) returns (statuses: seq<Result<string>>, cached: Option<string>)
    requires lib.firstText(LoginDoc, "sessionKey") == Some("TOK123")
    requires lib.firstText(SubmitDoc, "sid") == Some("job-42")
    ensures statuses == [Ok("0"), Raised, Ok("1")]
    ensures cached == Some("1")
  {
    StatusDocs();
    var net := new Transport([Some(LoginDoc), Some(SubmitDoc), Some(NotDoneDoc), None, Some(DoneDoc)]);
    var job, _, _ := LoggedInJob(lib, net);
    assert net.responses == [Some(NotDoneDoc), None, Some(DoneDoc)];
    var s1 := job.GetJobStatus(net);
    assert s1 == Ok("0") && job.jobStatus == Some("0") && net.responses == [None, Some(DoneDoc)];
    var s2 := job.GetJobStatus(net);
    assert s2 == Raised && job.jobStatus == Some("0") && net.responses == [Some(DoneDoc)];
    var s3 := job.GetJobStatus(net);
    statuses := [s1, s2, s3];
    cached := job.jobStatus;
  }

  /** Login, submission, two polls and a json fetch yield the token, the job id, the
      statuses "0" then "1", and the result bytes untouched. */
  method EndToEnd(lib: Library) returns (token: Result<string>, sid: Result<string>,
                                         statuses: seq<Result<string>>, results: Result<Option<string>>)
    requires lib.firstText(LoginDoc, "sessionKey") == Some("TOK123")
    requires lib.firstText(SubmitDoc, "sid") == Some("job-42")
    ensures token == Ok("TOK123") && sid == Ok("job-42")
    ensures statuses == [Ok("0"), Ok("1")]
    ensures results == Ok(Some("{\"count\":3}"))
  {
    StatusDocs();
    var net := new Transport([Some(LoginDoc), Some(SubmitDoc), Some(NotDoneDoc), Some(DoneDoc), Some("{\"count\":3}")]);
    var job;
    job, token, sid := LoggedInJob(lib, net);
    assert net.responses == [Some(NotDoneDoc), Some(DoneDoc), Some("{\"count\":3}")];
    var s1 := job.GetJobStatus(net);
    assert s1 == Ok("0") && net.responses == [Some(DoneDoc), Some("{\"count\":3}")];
    var s2 := job.GetJobStatus(net);
    assert s2 == Ok("1") && net.responses == [Some("{\"count\":3}")];
    statuses := [s1, s2];
    results := job.GetJobResults("json", net);
  }

  /** A login response without a `sessionKey` element raises and leaves the key empty. */
  method MalformedLogin(lib: Library) returns (token: Result<string>, key: string)
    requires lib.firstText("<response/>", "sessionKey") == None
    ensures token == Raised && key == ""
  {
    var net := new Transport([Some("<response/>")]);
    var search := new SplunkSynchSearch(Server, "admin", "changeme", "", "", "", lib);
    token := search.GetSessionToken(net);
    key := search.sessionKey;
  }

  /** For the asynchronous client an unknown mode is fetched as xml: "yaml" and "xml"
      send the same request and return the same bytes. */
  method ResultsModeFallback(lib: Library) returns (yaml: Result<Option<string>>, xml: Result<Option<string>>,
                                                    sameRequest: bool)
    requires lib.firstText(LoginDoc, "sessionKey") == Some("TOK123")
    requires lib.firstText(SubmitDoc, "sid") == Some("job-42")
    ensures yaml == xml == Ok(Some("<results/>"))
    ensures sameRequest
  {
    StatusDocs();
    var net := new Transport([Some(LoginDoc), Some(SubmitDoc), Some(NotDoneDoc), Some("<results/>"), Some("<results/>")]);
    var job, _, _ := LoggedInJob(lib, net);
    assert net.responses == [Some(NotDoneDoc), Some("<results/>"), Some("<results/>")];
    var status := job.GetJobStatus(net);
    assert status == Ok("0") && net.responses == [Some("<results/>"), Some("<results/>")] && |net.log| == 3;
    yaml := job.GetJobResults("yaml", net);
    assert net.responses == [Some("<results/>")];
    xml := job.GetJobResults("xml", net);
    ResultsFallback(JoinPath(JoinPath(Server, DefaultSearchJobsUri), "job-42"), "yaml");
    sameRequest := net.log[3] == net.log[4];
  }

  /** For the synchronous client an unknown mode raises before any request. */
  method SynchRejectsUnknownMode(lib: Library) returns (r: Result<string>, requests: nat)
    requires lib.firstText(LoginDoc, "sessionKey") == Some("TOK123")
    ensures r == Raised && requests == 1
  {
    var net := new Transport([Some(LoginDoc), Some("a,b\n1,2\n")]);
    var search := new SplunkSynchSearch(Server, "admin", "changeme", "", "", "* | stats count", lib);
    var token := search.GetSessionToken(net);
    r := search.SubmitSynchSearch("yaml", net);
    requests := |net.log|;
  }
}
