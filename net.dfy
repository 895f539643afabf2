/** The transport the clients talk through, reduced to what the clients observe: a queue of
    canned answers (a response body, or `None` for a failed request) and a log of every
    request issued. "No network call" is
    "the log is unchanged". */
module Net {
  import opened Wrappers

  /** One HTTP request: method, URL, headers (in order) and body (`None` for a GET). */
  datatype Request = Request(verb: string, url: string, headers: seq<(string, string)>, body: Option<string>)

  /** The body the next request receives, or `None` when the transport fails: the queued
      answer is a failure, or no answer is left. */
  function Next(responses: seq<Option<string>>): (r: Option<string>)
    ensures r.Some? <==> responses != [] && responses[0].Some?
    ensures r.Some? ==> r == responses[0]
  {
    if responses == [] then None else responses[0]
  }

  /** The responses left after one request. */
  function Rest(responses: seq<Option<string>>): (r: seq<Option<string>>)
    ensures responses != [] ==> responses == [responses[0]] + r
    ensures responses == [] ==> r == []
  {
    if responses == [] then [] else responses[1..]
  }

  class Transport {
    var responses: seq<Option<string>>
    var log: seq<Request>

    constructor (responses: seq<Option<string>>)
      ensures this.responses == responses && log == []
    {
      this.responses := responses;
      log := [];
    }

    /** Issue one request: it is logged, and it receives the next canned body. */
    method Send(req: Request) returns (resp: Option<string>)
      modifies this
      ensures log == old(log) + [req]
      ensures resp == Next(old(responses))
      ensures responses == Rest(old(responses))
    {
      log := log + [req];
      resp := Next(responses);
      responses := Rest(responses);
    }
  }
}
