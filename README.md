# Splunk search clients — a Dafny model

This project models the two Splunk REST clients of `splunkery`.

- `SplunkAsynchSearch` logs in and submits a search as a job. It polls the job's `isDone` flag and fetches the results in json, csv or xml.
- `SplunkSynchSearch` logs in and runs one blocking export search. That search returns its results directly in the requested mode.

The model covers the logic inside the two classes:

- the query normaliser `checkSearchQuery` and the `__setattr__` hook that applies it on every assignment;
- the constructors' defaults;
- the job state machine (`sessionkey`, `jobsid`, `jobstatus`);
- the requests each call sends;
- the `isDone` scan;
- the output-mode handling, which falls back to xml in the async client and raises in the sync client.

Files and modules:

- `wrappers.dfy` (`Wrappers`): `Option` stands for an unset attribute or an element that is not found. `Result` is a returned value or `Raised`.
- `query.dfy` (`Query`): the normaliser and its laws. It is defined once, although both source files carry an identical copy.
- `net.dfy` (`Net`): the transport, reduced to a class `Transport`. It holds a queue of canned answers and a log of every request (method, URL, headers, body). An answer is a response body, or `None` for a request that fails; a request made when the queue is empty fails too. "No request is made" is stated as `unchanged(net)`.
- `wire.dfy` (`Wire`): URLs, authorization headers, url-encoded bodies, the `isDone` scan and output modes. It also holds `Library`, the two library routines the clients call. These are kept abstract as function values:
  - `quotePlus` is the percent-encoding inside `urllib.urlencode`;
  - `firstText` is the minidom lookup `getElementsByTagName(tag)[0].childNodes[0].nodeValue`, returning `None` where that lookup raises.
- `asynch_search.dfy` (`AsynchSearch`): the class `SplunkAsynchSearch`, with fields updated in place.
- `synch_search.dfy` (`SynchSearch`): the class `SplunkSynchSearch`.
- `scenarios.dfy` (`Scenarios`): client methods that drive the classes against a canned transport. They establish, from the contracts alone:
  - that no request is sent before login;
  - that a finished status is cached;
  - that a failed poll keeps the cached status and a later poll succeeds;
  - a full login, submit, poll, fetch run;
  - a malformed login;
  - the xml fallback;
  - the sync client's rejection of an unknown mode.

How the Python behaviour is represented:

- Every Python exception is the single outcome `Raised`. These include:
  - the `NameError` from the undefined `ValueException`;
  - the `AttributeError` from an unset attribute;
  - the `TypeError` from joining `None` into a URL;
  - a missing XML element;
  - a transport failure (a `None` answer, or a request when no answer is left).
- `jobSid` is an `Option<string>` because `submit_asynch_search` sets it to Python `None` before the request (SplunkAsynchSearch.py:97). A failed submission therefore leaves it `None`, and a later poll then raises.
- `jobStatus` stays text (`None`, `"0"` or `"1"`), as in the source. That it takes only these values is part of the object invariant `Valid()`.

Behaviours of the code the model keeps as written:

- The normaliser tests for `search` without a trailing space, so `searchable` passes through unchanged. The stored query is only guaranteed to start with `search` (see `Query.KeywordWithoutSpace`).
- A non-empty URI argument to a constructor leaves that URI attribute unset. Every later call that needs it raises.
- A token or sid is accepted as extracted. Nothing checks that it is non-empty.
- Polling a job is one request per call. The clients contain no loop, no attempt limit and no timeout.
- The async client sends the header `Splunk <key>` and the sync client sends `Splunk: <key>`, with a colon.
- `submit_synch_search` *returns* `ValueException(...)` for a bad mode rather than raising it. Evaluating the name raises `NameError` either way, so the outcome is `Raised`.

## Model

| member | source | states |
|---|---|---|
| Query.CheckSearchQuery | SplunkAsynchSearch.py:58-63 | the result starts with "search" and is either the query itself or "search " followed by the query (the same code is at SplunkSynchSearch.py:56-61) |
| Query.FixedPointsAreNormalised | SplunkAsynchSearch.py:60-63 | the query comes back unchanged exactly when it already starts with "search" (both directions) |
| Query.PrependsPrefix | SplunkAsynchSearch.py:60-61 | a query not starting with "search" becomes "search " + query |
| Query.Idempotent | SplunkSynchSearch.py:33-34 | normalising twice equals normalising once, so the double normalisation in `__init__` is harmless |
| Query.NeverEmpty | SplunkAsynchSearch.py:58-63 | a normalised query has at least 6 characters; the empty query becomes "search " |
| Query.KeywordWithoutSpace | SplunkAsynchSearch.py:60 | the prefix test has no space, so "searchable" passes through and does not start with "search " |
| Wire.AsynchAuth | SplunkAsynchSearch.py:100 | one Authorization header whose value is "Splunk " followed by exactly the session key |
| Wire.SynchAuth | SplunkSynchSearch.py:90 | one Authorization header whose value is "Splunk: " followed by exactly the session key |
| Wire.ExtractField | SplunkAsynchSearch.py:102-103 | success exactly when the transport answered and the element is found, with the element's text |
| Wire.Body | SplunkSynchSearch.py:102-103 | the response body is returned unmodified; a failed transport raises |
| Wire.FirstMatch | SplunkAsynchSearch.py:125-126 | the leftmost position where `isDone">` is followed by 0 or 1, or no such position exists anywhere |
| Wire.IsDoneFlag | SplunkAsynchSearch.py:125-126 | the captured digit is 0 or 1 and is the one after the first match; None exactly when nothing matches |
| Wire.PollOutcome | SplunkAsynchSearch.py:124-127 | a poll succeeds exactly when the transport answered and the pattern matched, with the digit as "0" or "1" |
| Wire.ResultsMode | SplunkAsynchSearch.py:149-154 | the mode asked for is json, csv or xml, and equals the request exactly when the request is one of these |
| Wire.ResultsUrlLiterals | SplunkAsynchSearch.py:149-154 | the results URL is the job URL + "/results?output_mode=json&count=0" (resp. csv, and xml for anything else) |
| Wire.ResultsFallback | SplunkAsynchSearch.py:153-154 | an unknown mode yields the same results URL as "xml" |
| Wire.SynchBody | SplunkSynchSearch.py:91-100 | a body exists exactly for csv, json and xml, and is the encoded query, "&", and the encoded mode |
| Wire.SynchBodyOnWire | SplunkSynchSearch.py:91-98 | with an encoder that leaves letters, digits and `_.-` alone, the body is "search=" + encoded query + "&output_mode=" + mode |
| AsynchSearch.SplunkAsynchSearch.constructor | SplunkAsynchSearch.py:28-44 | empty session key, sid "", status unset; query normalised if given, else unset; each URI default only for an empty argument, else unset |
| AsynchSearch.SplunkAsynchSearch.SetSearchQuery | SplunkAsynchSearch.py:47-55 | assigning the query stores its normalised form and touches nothing else |
| AsynchSearch.SplunkAsynchSearch.GetSessionToken | SplunkAsynchSearch.py:71-79 | one header-less POST to server/login_uri; the key changes only when the token is found; an unset login URI raises with no request |
| AsynchSearch.SplunkAsynchSearch.SubmitAsynchSearch | SplunkAsynchSearch.py:82-105 | no query or no key: raises, no request, no change; otherwise status reset, one POST to server/search_jobs_uri with "Splunk <key>", sid stored (None on failure); invariant kept |
| AsynchSearch.SplunkAsynchSearch.GetJobStatus | SplunkAsynchSearch.py:108-130 | no key: raises, no request; cached "1": returns "1", no request, no change; else one GET of the job URL, status = captured digit, unchanged on failure |
| AsynchSearch.SplunkAsynchSearch.GetJobResults | SplunkAsynchSearch.py:133-160 | no key or sid: raises, no request; no status: None, no request; else one GET of the results URL with the xml fallback, body returned; fields never change |
| SynchSearch.SplunkSynchSearch.constructor | SplunkSynchSearch.py:28-42 | empty session key; query normalised if given, else unset; export and login URIs default only for empty arguments, else unset |
| SynchSearch.SplunkSynchSearch.SetSearchQuery | SplunkSynchSearch.py:45-53 | assigning the query stores its normalised form and keeps the invariant |
| SynchSearch.SplunkSynchSearch.GetSessionToken | SplunkSynchSearch.py:69-77 | one header-less POST to server/login_uri; the key is set only when extraction succeeds, unchanged otherwise |
| SynchSearch.SplunkSynchSearch.SubmitSynchSearch | SplunkSynchSearch.py:80-103 | no query, no key or a mode other than csv/json/xml: raises with no request; else one POST to server/search_uri with "Splunk: <key>" and the mode body; no field changes |
| Scenarios.CallsBeforeLogin | SplunkAsynchSearch.py:90-142 | before login, submit, poll and fetch all raise and the transport sees no request |
| Scenarios.StatusCaching | SplunkAsynchSearch.py:120-130 | status answers 0, 0, 1 give polls "0", "0", "1", "1"; the fourth poll sends nothing |
| Scenarios.FailedPollThenDone | SplunkAsynchSearch.py:120-127 | a poll whose request fails raises and keeps the cached "0"; the next poll is sent again and returns and caches "1" |
| Scenarios.EndToEnd | SplunkAsynchSearch.py:71-160 | login, submit, two polls and a json fetch give TOK123, job-42, ["0", "1"] and the result bytes unmodified |
| Scenarios.MalformedLogin | SplunkSynchSearch.py:73-77 | a login response without sessionKey raises and the key stays empty |
| Scenarios.ResultsModeFallback | SplunkAsynchSearch.py:149-156 | fetching "yaml" sends the same request and returns the same bytes as "xml" |
| Scenarios.SynchRejectsUnknownMode | SplunkSynchSearch.py:93-100 | mode "yaml" raises and only the login request was sent |

## Left out

- The `main()` drivers (SplunkAsynchSearch.py:163-230, SplunkSynchSearch.py:107-156) are not modelled: console prompts, file writing, timestamps and the unbounded `while`/`sleep(0.5)` poll loop are I/O and wall-clock timing.
- `showSelf` only pretty-prints, and the `print` inside `checkSearchQuery` is a console side effect; neither is modelled.
- `httplib2.Http` and its TLS option are replaced by the canned-response `Transport`. A new connection per call and certificate handling are not modelled.
- minidom parsing is the abstract `Library.firstText`. The model does not say which documents contain which elements.
- The percent-encoding of `urllib.urlencode` is the abstract `Library.quotePlus`. Only the `key=value` and `&` concatenation around it is modelled.
- The login body lists `username` before `password`. The source builds it from a Python dict, whose iteration order the model does not capture.
- Python's dynamic typing is not modelled. Query values and arguments are strings, so a non-string query, which would raise inside `checkSearchQuery`, cannot be expressed.
- Direct assignments by callers to `sessionkey`, `jobsid` or `jobstatus` are not modelled. `SubmitAsynchSearch` and `GetJobStatus` require the object invariant `Valid()`, which every modelled operation establishes or keeps. A caller that writes an arbitrary `jobstatus` is outside the model.
- Retry, timeouts and concurrency are not modelled: the source has none.
