/** `SplunkSynchSearch`: one blocking export search that returns results directly. */
module SynchSearch {
  import opened Wrappers
  import opened Query
  import opened Net
  import opened Wire

  class SplunkSynchSearch {
    var server: string
    var user: string
    var password: string
    var searchQuery: Option<string>
    var sessionKey: string
    var searchUri: Option<string>
    var loginUri: Option<string>
    const lib: Library

    /** The object invariant: the stored query, when set, is normalised. */
    ghost predicate Valid()
      reads this
    {
      Normalised(searchQuery)
    }

    /** `__init__`: a non-empty query is normalised twice (explicit call, then the
        attribute hook); each URI attribute gets its default only when its argument is
        empty and is left unset otherwise. */
    constructor (server: string, username: string, password: string,
                 searchUri: string, loginUri: string, query: string, lib: Library)
      ensures Valid()
      ensures this.server == server && user == username && this.password == password && this.lib == lib
      ensures searchQuery == if query == "" then None else Some(CheckSearchQuery(query))
      ensures sessionKey == ""
      ensures this.searchUri == if searchUri == "" then Some(DefaultSearchUri) else None
      ensures this.loginUri == if loginUri == "" then Some(DefaultLoginUri) else None
    {
      this.server := server;
      user := username;
      this.password := password;
      this.lib := lib;
      searchQuery := None;
      sessionKey := "";
      this.searchUri := if searchUri == "" then Some(DefaultSearchUri) else None;
      this.loginUri := if loginUri == "" then Some(DefaultLoginUri) else None;
      new;
      if query != "" {
        SetSearchQuery(CheckSearchQuery(query));
        Idempotent(query);
      }
    }

    /** `__setattr__('searchQuery', v)`: every assignment stores the normalised value. */
    method SetSearchQuery(v: string)
      modifies this`searchQuery
      ensures searchQuery == Some(CheckSearchQuery(v))
      ensures Valid()
    {
      searchQuery := Some(CheckSearchQuery(v));
    }

    /** `get_session_token`: POST the credentials, without headers, to the login URI; the
        session key changes only when the token is found in the response. */
    method GetSessionToken(net: Transport) returns (r: Result<string>)
      modifies this`sessionKey, net
      ensures loginUri.None? ==> r == Raised && unchanged(net)
      ensures loginUri.Some? ==>
        && net.log == old(net.log) + [LoginRequest(lib, server, loginUri.value, user, password)]
        && net.responses == Rest(old(net.responses))
        && r == ExtractField(lib, Next(old(net.responses)), "sessionKey")
      ensures sessionKey == if r.Ok? then r.value else old(sessionKey)
    {
      if loginUri.None? {
        return Raised;
      }
      var response := net.Send(LoginRequest(lib, server, loginUri.value, user, password));
      r := ExtractField(lib, response, "sessionKey");
      if r.Ok? {
        sessionKey := r.value;
      }
    }

    /** `submit_synch_search`: with a query and a session key, POST the query and the
        output mode (csv, json or xml) to the export URI and return the response body
        unmodified. A missing query or key, or any other mode, raises before a request
        is made. No field of the object changes. */
    method SubmitSynchSearch(outputMode: string, net: Transport) returns (r: Result<string>)
      modifies net
      ensures !Truthy(searchQuery) || sessionKey == "" || searchUri.None? || !SynchMode(outputMode) ==>
        r == Raised && unchanged(net)
      ensures Truthy(searchQuery) && sessionKey != "" && searchUri.Some? && SynchMode(outputMode) ==>
        && net.log == old(net.log) + [Request("POST", JoinPath(server, searchUri.value), SynchAuth(sessionKey),
                                              Some(SynchBody(lib, searchQuery.value, outputMode).value))]
        && net.responses == Rest(old(net.responses))
        && r == Body(Next(old(net.responses)))
    {
      if !Truthy(searchQuery) {
        return Raised;
      }
      if sessionKey == "" {
        return Raised;
      }
      if searchUri.None? {
        return Raised;
      }
      var url := JoinPath(server, searchUri.value);
      var headers := SynchAuth(sessionKey);
      var body := Field(lib, "search", searchQuery.value);
      if outputMode == "csv" {
        body := body + "&" + Field(lib, "output_mode", "csv");
      } else if outputMode == "json" {
        body := body + "&" + Field(lib, "output_mode", "json");
      } else if outputMode == "xml" {
        body := body + "&" + Field(lib, "output_mode", "xml");
      } else {
        return Raised;
      }
      var response := net.Send(Request("POST", url, headers, Some(body)));
      r := Body(response);
    }
  }
}
