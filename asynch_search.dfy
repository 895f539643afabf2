/** `SplunkAsynchSearch`: submit a search as a job, poll its status, fetch its results. */
module AsynchSearch {
  import opened Wrappers
  import opened Query
  import opened Net
  import opened Wire

  /** The values the job status takes: unset, "0" (not done) or "1" (done), as text. */
  predicate StatusWellFormed(s: Option<string>) {
    s == None || s == Some("0") || s == Some("1")
  }

  class SplunkAsynchSearch {
    var server: string
    var user: string
    var password: string
    var searchQuery: Option<string>
    var sessionKey: string
    var jobSid: Option<string>
    var jobStatus: Option<string>
    var searchJobsUri: Option<string>
    var loginUri: Option<string>
    const lib: Library

    /** The object invariant: the stored query is normalised and the status is one of
        unset, "0" and "1". */
    ghost predicate Valid()
      reads this
    {
      Normalised(searchQuery) && StatusWellFormed(jobStatus)
    }

    /** `__init__`: a non-empty query is normalised (twice: by the explicit call and by the
        attribute hook); the URI attributes are set to their defaults only when the
        argument is empty, and are left unset otherwise. */
    constructor (server: string, username: string, password: string,
                 searchJobsUri: string, loginUri: string, query: string, lib: Library)
      ensures Valid()
      ensures this.server == server && user == username && this.password == password && this.lib == lib
      ensures searchQuery == if query == "" then None else Some(CheckSearchQuery(query))
      ensures sessionKey == "" && jobSid == Some("") && jobStatus == None
      ensures this.searchJobsUri == if searchJobsUri == "" then Some(DefaultSearchJobsUri) else None
      ensures this.loginUri == if loginUri == "" then Some(DefaultLoginUri) else None
    {
      this.server := server;
      user := username;
      this.password := password;
      this.lib := lib;
      searchQuery := None;
      sessionKey := "";
      jobSid := Some("");
      jobStatus := None;
      this.searchJobsUri := if searchJobsUri == "" then Some(DefaultSearchJobsUri) else None;
      this.loginUri := if loginUri == "" then Some(DefaultLoginUri) else None;
      new;
      if query != "" {
        SetSearchQuery(CheckSearchQuery(query));
        Idempotent(query);
      }
    }

    /** `__setattr__('searchQuery', v)`: every assignment stores the normalised value. */
    method SetSearchQuery(v: string)
      modifies this`searchQuery
      ensures searchQuery == Some(CheckSearchQuery(v))
      ensures Normalised(searchQuery)
    {
      searchQuery := Some(CheckSearchQuery(v));
    }

    /** `get_session_token`: POST the credentials to the login URI; on success the token
        becomes the session key, otherwise the session key is left as it was. */
    method GetSessionToken(net: Transport) returns (r: Result<string>)
      modifies this`sessionKey, net
      ensures loginUri.None? ==> r == Raised && unchanged(net)
      ensures loginUri.Some? ==>
        && net.log == old(net.log) + [LoginRequest(lib, server, loginUri.value, user, password)]
        && net.responses == Rest(old(net.responses))
        && r == ExtractField(lib, Next(old(net.responses)), "sessionKey")
      ensures sessionKey == if r.Ok? then r.value else old(sessionKey)
    {
      if loginUri.None? {
        return Raised;
      }
      var response := net.Send(LoginRequest(lib, server, loginUri.value, user, password));
      r := ExtractField(lib, response, "sessionKey");
      if r.Ok? {
        sessionKey := r.value;
      }
    }

    /** `submit_asynch_search`: with a query and a session key, forget the previous job
        (status unset, sid `None`), POST the query to the jobs URI and keep the sid of
        the new job. Without a query or a key nothing changes and nothing is sent. */
    method SubmitAsynchSearch(net: Transport) returns (r: Result<string>)
      requires Valid()
      modifies this`jobSid, this`jobStatus, net
      ensures Valid()
      ensures !Truthy(searchQuery) || sessionKey == "" ==>
        r == Raised && unchanged(net) && jobSid == old(jobSid) && jobStatus == old(jobStatus)
      ensures Truthy(searchQuery) && sessionKey != "" ==> jobStatus == None
      ensures Truthy(searchQuery) && sessionKey != "" && searchJobsUri.None? ==>
        r == Raised && unchanged(net) && jobSid == None
      ensures Truthy(searchQuery) && sessionKey != "" && searchJobsUri.Some? ==>
        && net.log == old(net.log) + [Request("POST", JoinPath(server, searchJobsUri.value), AsynchAuth(sessionKey),
                                              Some(Field(lib, "search", searchQuery.value)))]
        && net.responses == Rest(old(net.responses))
        && r == ExtractField(lib, Next(old(net.responses)), "sid")
        && jobSid == if r.Ok? then Some(r.value) else None
    {
      if !Truthy(searchQuery) {
        return Raised;
      }
      if sessionKey == "" {
        return Raised;
      }
      jobStatus := None;
      jobSid := None;
      if searchJobsUri.None? {
        return Raised;
      }
      var url := JoinPath(server, searchJobsUri.value);
      var headers := AsynchAuth(sessionKey);
      var body := Field(lib, "search", searchQuery.value);
      var response := net.Send(Request("POST", url, headers, Some(body)));
      r := ExtractField(lib, response, "sid");
      if r.Ok? {
        jobSid := Some(r.value);
      }
    }

    /** `get_job_status`: a cached "1" is returned without a request; an unset or "0"
        status is re-polled with one GET of the job URL, and the digit the `isDone` scan
        captures is cached and returned. A poll that fails leaves the status as it was. */
    method GetJobStatus(net: Transport) returns (r: Result<string>)
      requires Valid()
      modifies this`jobStatus, net
      ensures Valid()
      ensures sessionKey == "" ==> r == Raised && unchanged(net) && jobStatus == old(jobStatus)
      ensures sessionKey != "" && old(jobStatus) == Some("1") ==>
        r == Ok("1") && unchanged(net) && jobStatus == Some("1")
      ensures sessionKey != "" && old(jobStatus) != Some("1") && (searchJobsUri.None? || jobSid.None?) ==>
        r == Raised && unchanged(net) && jobStatus == old(jobStatus)
      ensures sessionKey != "" && old(jobStatus) != Some("1") && searchJobsUri.Some? && jobSid.Some? ==>
        && net.log == old(net.log) + [Request("GET", JoinPath(JoinPath(server, searchJobsUri.value), jobSid.value),
                                              AsynchAuth(sessionKey), None)]
        && net.responses == Rest(old(net.responses))
        && r == PollOutcome(Next(old(net.responses)))
        && jobStatus == if r.Ok? then Some(r.value) else old(jobStatus)
      ensures r.Ok? ==> r.value == "0" || r.value == "1"
    {
      if sessionKey == "" {
        return Raised;
      }
      if !Truthy(jobStatus) || jobStatus == Some("0") {
        if searchJobsUri.None? || jobSid.None? {
          return Raised;
        }
        var url := JoinPath(JoinPath(server, searchJobsUri.value), jobSid.value);
        var headers := AsynchAuth(sessionKey);
        var statusXml := net.Send(Request("GET", url, headers, None));
        r := PollOutcome(statusXml);
        if r.Ok? {
          jobStatus := Some(r.value);
        }
      } else {
        r := Ok(jobStatus.value);
      }
    }

    /** `get_job_results`: with a key and a sid, and once some status has been cached, GET
        the results in the requested mode (xml for an unknown one) and return the body
        unmodified; before any status is cached, return `None` without a request. The
        object's fields are never changed. */
    method GetJobResults(outputMode: string, net: Transport) returns (r: Result<Option<string>>)
      modifies net
      ensures sessionKey == "" || !Truthy(jobSid) ==> r == Raised && unchanged(net)
      ensures sessionKey != "" && Truthy(jobSid) && !Truthy(jobStatus) ==> r == Ok(None) && unchanged(net)
      ensures sessionKey != "" && Truthy(jobSid) && Truthy(jobStatus) && searchJobsUri.None? ==>
        r == Raised && unchanged(net)
      ensures sessionKey != "" && Truthy(jobSid) && Truthy(jobStatus) && searchJobsUri.Some? ==>
        && net.log == old(net.log) + [Request("GET", ResultsUrl(JoinPath(JoinPath(server, searchJobsUri.value), jobSid.value), outputMode),
                                              AsynchAuth(sessionKey), None)]
        && net.responses == Rest(old(net.responses))
        && r == match Body(Next(old(net.responses))) case Ok(b) => Ok(Some(b)) case Raised => Raised
    {
      if sessionKey == "" {
        return Raised;
      }
      if !Truthy(jobSid) {
        return Raised;
      }
      if Truthy(jobStatus) {
        if searchJobsUri.None? {
          return Raised;
        }
        var url := JoinPath(JoinPath(server, searchJobsUri.value), jobSid.value);
        var headers := AsynchAuth(sessionKey);
        ResultsUrlLiterals(url, outputMode);
        if outputMode == "json" {
          url := url + "/results?output_mode=json&count=0";
        } else if outputMode == "csv" {
          url := url + "/results?output_mode=csv&count=0";
        } else {
          url := url + "/results?output_mode=xml&count=0";
        }
        var results := net.Send(Request("GET", url, headers, None));
        r := match Body(results) case Ok(b) => Ok(Some(b)) case Raised => Raised;
      } else {
        r := Ok(None);
      }
    }
  }
}
