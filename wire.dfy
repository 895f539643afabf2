/** The strings the clients put on the wire and read back: URLs, headers, url-encoded
    bodies, and the `isDone` scan of a status document. */
module Wire {
  import opened Wrappers
  import opened Net

  /** The two library routines the clients rely on and this model does not implement:
      `quotePlus` is the percent-encoding `urllib.urlencode` applies to every key and
      value, and `firstText(doc, tag)` is the minidom lookup
      `getElementsByTagName(tag)[0].childNodes[0].nodeValue`, `None` where it raises. */
  datatype Library = Library(quotePlus: string -> string, firstText: (string, string) -> Option<string>)

  const DefaultSearchJobsUri: string := "services/search/jobs"
  const DefaultSearchUri: string := "servicesNS/admin/search/search/jobs/export"
  const DefaultLoginUri: string := "services/auth/login"

  /** Python truthiness of a string attribute that may be unset: set and non-empty. */
  predicate Truthy(o: Option<string>) {
    o.Some? && o.value != ""
  }

  /** `''.join([base, '/', part])`. */
  function JoinPath(base: string, part: string): string {
    base + "/" + part
  }

  /** `urllib.urlencode({key: value})`. */
  function Field(lib: Library, key: string, value: string): string {
    lib.quotePlus(key) + "=" + lib.quotePlus(value)
  }

  /** The authorization header of the asynchronous client, `Splunk <key>`. */
  function AsynchAuth(key: string): (h: seq<(string, string)>)
    ensures |h| == 1 && h[0].0 == "Authorization"
    ensures |h[0].1| == 7 + |key| && h[0].1[..7] == "Splunk " && h[0].1[7..] == key
  {
    [("Authorization", "Splunk " + key)]
  }

  /** The authorization header of the synchronous client, `Splunk: <key>` (with a colon). */
  function SynchAuth(key: string): (h: seq<(string, string)>)
    ensures |h| == 1 && h[0].0 == "Authorization"
    ensures |h[0].1| == 8 + |key| && h[0].1[..8] == "Splunk: " && h[0].1[8..] == key
  {
    [("Authorization", "Splunk: " + key)]
  }

  /** The login request both clients send: a POST without headers whose body carries the
      url-encoded credentials. */
  function LoginRequest(lib: Library, server: string, loginUri: string, user: string, password: string): Request {
    Request("POST", JoinPath(server, loginUri), [],
            Some(Field(lib, "username", user) + "&" + Field(lib, "password", password)))
  }

  /** The text of the first `tag` element of a response, or `Raised` when the transport
      failed or the element is missing. */
  function ExtractField(lib: Library, response: Option<string>, tag: string): (r: Result<string>)
    ensures r.Ok? <==> response.Some? && lib.firstText(response.value, tag).Some?
    ensures r.Ok? ==> r.value == lib.firstText(response.value, tag).value
  {
    match response
    case None => Raised
    case Some(doc) =>
      match lib.firstText(doc, tag)
      case None => Raised
      case Some(text) => Ok(text)
  }

  /** A raw response body returned to the caller unmodified; a failed transport raises. */
  function Body(response: Option<string>): (r: Result<string>)
    ensures r.Ok? <==> response.Some?
    ensures r.Ok? ==> r.value == response.value
  {
    match response
    case None => Raised
    case Some(b) => Ok(b)
  }

  // ---------------------------------------------------------------------------------
  // The status scan: `re.compile('isDone">(0|1)').search(text).groups()[0]`.

  const IsDoneTag: string := "isDone\">"

  /** The pattern matches at position `i`: the tag, then the digit 0 or 1. */
  predicate MatchAt(s: string, i: nat) {
    i + |IsDoneTag| < |s| && s[i..i + |IsDoneTag|] == IsDoneTag && (s[i + |IsDoneTag|] == '0' || s[i + |IsDoneTag|] == '1')
  }

  /** The leftmost position at or after `from` where the pattern matches. */
  function FirstMatch(s: string, from: nat): (r: Option<nat>)
    decreases |s| - from
    ensures r.Some? ==> from <= r.value && MatchAt(s, r.value)
    ensures r.Some? ==> forall j: nat :: from <= j < r.value ==> !MatchAt(s, j)
    ensures r.None? ==> forall j: nat :: from <= j ==> !MatchAt(s, j)
  {
    if |s| <= from + |IsDoneTag| then None
    else if MatchAt(s, from) then Some(from)
    else FirstMatch(s, from + 1)
  }

  /** The digit captured by the scan: the one after the leftmost match, `None` when the
      pattern occurs nowhere. */
  function IsDoneFlag(s: string): (r: Option<char>)
    ensures r.Some? ==> r.value == '0' || r.value == '1'
    ensures r.None? <==> forall j: nat :: !MatchAt(s, j)
    ensures forall i: nat :: MatchAt(s, i) && (forall j: nat :: j < i ==> !MatchAt(s, j)) ==>
              r == Some(s[i + |IsDoneTag|])
  {
    match FirstMatch(s, 0)
    case None => None
    case Some(i) => Some(s[i + |IsDoneTag|])
  }

  /** What a status poll yields from the response: the captured digit as text, or
      `Raised` when the transport failed or the pattern is absent. */
  function PollOutcome(response: Option<string>): (r: Result<string>)
    ensures r.Ok? <==> response.Some? && IsDoneFlag(response.value).Some?
    ensures r.Ok? ==> r.value == [IsDoneFlag(response.value).value]
    ensures r.Ok? ==> r.value == "0" || r.value == "1"
  {
    match response
    case None => Raised
    case Some(doc) =>
      match IsDoneFlag(doc)
      case None => Raised
      case Some(c) => Ok([c])
  }

  // ---------------------------------------------------------------------------------
  // Output modes.

  /** The output mode `get_job_results` asks for: json and csv as requested, xml for
      anything else. */
  function ResultsMode(m: string): (r: string)
    ensures r == "json" || r == "csv" || r == "xml"
    ensures r == m <==> (m == "json" || m == "csv" || m == "xml")
  {
    if m == "json" then "json" else if m == "csv" then "csv" else "xml"
  }

  /** The results URL of a job. */
  function ResultsUrl(jobUrl: string, m: string): string {
    jobUrl + "/results?output_mode=" + ResultsMode(m) + "&count=0"
  }

  /** The three URLs the source spells out literally, one per branch of its mode test. */
  lemma ResultsUrlLiterals(jobUrl: string, m: string)
    ensures m == "json" ==> ResultsUrl(jobUrl, m) == jobUrl + "/results?output_mode=json&count=0"
    ensures m == "csv" ==> ResultsUrl(jobUrl, m) == jobUrl + "/results?output_mode=csv&count=0"
    ensures m != "json" && m != "csv" ==> ResultsUrl(jobUrl, m) == jobUrl + "/results?output_mode=xml&count=0"
  {
  }

  /** An unrecognised mode fetches exactly what "xml" fetches. */
  lemma ResultsFallback(jobUrl: string, m: string)
    requires m != "json" && m != "csv"
    ensures ResultsUrl(jobUrl, m) == ResultsUrl(jobUrl, "xml")
  {
  }

  /** The output modes `submit_synch_search` accepts. */
  predicate SynchMode(m: string) {
    m == "csv" || m == "json" || m == "xml"
  }

  /** The body of a synchronous search: the encoded query, then the encoded mode; any
      other mode is refused. */
  function SynchBody(lib: Library, query: string, m: string): (r: Result<string>)
    ensures r.Ok? <==> SynchMode(m)
    ensures r.Ok? ==> r.value == Field(lib, "search", query) + "&" + Field(lib, "output_mode", m)
  {
    if SynchMode(m) then Ok(Field(lib, "search", query) + "&" + Field(lib, "output_mode", m)) else Raised
  }

  // ---------------------------------------------------------------------------------
  // What percent-encoding leaves alone.

  /** The characters `urllib.quote_plus` never escapes: letters, digits and `_.-`. */
  predicate Unreserved(c: char) {
    ('a' <= c <= 'z') || ('A' <= c <= 'Z') || ('0' <= c <= '9') || c == '_' || c == '.' || c == '-'
  }

  predicate AllUnreserved(s: string) {
    forall i :: 0 <= i < |s| ==> Unreserved(s[i])
  }

  /** An encoder that, like `quote_plus`, leaves strings of unreserved characters as they are. */
  ghost predicate KeepsUnreserved(lib: Library) {
    forall s :: AllUnreserved(s) ==> lib.quotePlus(s) == s
  }

  /** The encoder leaves the key names and the accepted modes as they are. */
  lemma FixedNames(lib: Library, m: string)
    requires KeepsUnreserved(lib)
    requires SynchMode(m)
    ensures lib.quotePlus("search") == "search"
    ensures lib.quotePlus("output_mode") == "output_mode"
    ensures lib.quotePlus(m) == m
  {
  }

  /** With such an encoder the synchronous body reads `search=<encoded query>&output_mode=<mode>`. */
  lemma SynchBodyOnWire(lib: Library, query: string, m: string)
    requires KeepsUnreserved(lib)
    requires SynchMode(m)
    ensures SynchBody(lib, query, m) == Ok("search=" + lib.quotePlus(query) + "&output_mode=" + m)
  {
    FixedNames(lib, m);
    var head := "search=" + lib.quotePlus(query);
    calc {
      SynchBody(lib, query, m).value;
      Field(lib, "search", query) + "&" + Field(lib, "output_mode", m);
      head + "&" + ("output_mode=" + m);
      head + "&output_mode=" + m;
    }
  }
}
