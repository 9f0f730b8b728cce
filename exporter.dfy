/**
  The WSGI side of the exporter: routing on the first path segment, the
  fixed not-found response, and the `/probe` handler, which reads the
  target and credentials from the query string, runs one request-scoped
  collector and hands its families to the encoder.
 */
module Exporter {
  import opened Wrappers
  import opened PduModel
  import opened Gauges
  import opened Collector
  import opened CollectorProperties

  /** The four handlers `wsgi_app` can delegate to. */
  datatype Handler = Front | Probe | PrometheusApp | NotFound

  /**
    `wsgi_app`: chooses the handler from the first path segment, as
    `shift_path_info` returns it (`None` when no path is left).
   */
  function Dispatch(name: Option<string>): (h: Handler)
    ensures h == Front <==> name == Some("")
    ensures h == Probe <==> name == Some("probe")
    ensures h == PrometheusApp <==> name == Some("metrics")
    ensures h == NotFound <==> name !in {Some(""), Some("probe"), Some("metrics")}
  {
    if name == Some("") then Front
    else if name == Some("probe") then Probe
    else if name == Some("metrics") then PrometheusApp
    else NotFound
  }

  newtype byte = b: int | 0 <= b < 256

  /** The bytes of an ASCII string. */
  function Ascii(s: string): (bytes: seq<byte>)
    requires forall i :: 0 <= i < |s| ==> s[i] as int < 128
    ensures |bytes| == |s|
    ensures forall i :: 0 <= i < |s| ==> bytes[i] as int == s[i] as int
  {
    seq(|s|, i requires 0 <= i < |s| => s[i] as int as byte)
  }

  /** The characters a byte string stands for, one per byte. */
  function Text(bytes: seq<byte>): (s: string)
    ensures |s| == |bytes|
    ensures forall i :: 0 <= i < |bytes| ==> s[i] as int == bytes[i] as int
  {
    seq(|bytes|, i requires 0 <= i < |bytes| => bytes[i] as int as char)
  }

  lemma AsciiRoundTrip(s: string)
    requires forall i :: 0 <= i < |s| ==> s[i] as int < 128
    ensures Text(Ascii(s)) == s
  {
    var t := Text(Ascii(s));
    assert forall i :: 0 <= i < |s| ==> t[i] == s[i];
  }

  /** What a handler passes to `start_response` and returns as the body. */
  datatype Response = Response(status: string, headers: seq<(string, string)>, body: seq<seq<byte>>)

  /** `not_found`: a plain-text 404 whose single body chunk reads "Not Found" and CR LF. */
  function NotFoundResponse(): (r: Response)
    ensures r.status == "404 Not Found"
    ensures r.headers == [("Content-Type", "text/plain")]
    ensures |r.body| == 1 && Text(r.body[0]) == "Not Found\r\n"
  {
    AsciiRoundTrip("Not Found\r\n");
    Response("404 Not Found", [("Content-Type", "text/plain")], [Ascii("Not Found\r\n")])
  }

  /** The query string as `parse_qs` returns it: each key with its values in order. */
  type Query = map<string, seq<string>>

  /** Why a probe request produced no metrics. */
  datatype ProbeFailure =
    | MissingKey(key: string)   // `qs[key]` raises KeyError
    | NoValue(key: string)      // `qs[key][0]` raises IndexError
    | DeviceFault(error: Error) // raised by the device client during `collect`

  datatype ProbeRequest = ProbeRequest(target: string, user: string, password: string)

  predicate HasValue(query: Query, key: string) {
    key in query && |query[key]| > 0
  }

  /** The error `qs[key][0]` raises when the key has no value. */
  function LookupFailure(query: Query, key: string): ProbeFailure {
    if key in query then NoValue(key) else MissingKey(key)
  }

  /** `qs[key][0]`. */
  function FirstValue(query: Query, key: string): Result<string, ProbeFailure> {
    if key !in query then Failure(MissingKey(key))
    else if query[key] == [] then Failure(NoValue(key))
    else Success(query[key][0])
  }

  /**
    The collector's arguments: the first value of `target`, `user` and
    `pass`, looked up in that order; the first key without a value is the
    error.
   */
  function ProbeArgs(query: Query): (r: Result<ProbeRequest, ProbeFailure>)
    ensures r.Success? <==> HasValue(query, "target") && HasValue(query, "user") && HasValue(query, "pass")
    ensures r.Success? ==> r.value == ProbeRequest(query["target"][0], query["user"][0], query["pass"][0])
    ensures !HasValue(query, "target") ==> r == Failure(LookupFailure(query, "target"))
    ensures HasValue(query, "target") && !HasValue(query, "user") ==> r == Failure(LookupFailure(query, "user"))
    ensures HasValue(query, "target") && HasValue(query, "user") && !HasValue(query, "pass") ==>
              r == Failure(LookupFailure(query, "pass"))
  {
    var target :- FirstValue(query, "target");
    var user :- FirstValue(query, "user");
    var password :- FirstValue(query, "pass");
    Success(ProbeRequest(target, user, password))
  }

  /** What the probe hands on: the families to encode, or the exception it raises. */
  datatype ProbeOutcome<R> = Scraped(snapshot: seq<Family<R>>) | Raised(failure: ProbeFailure)

  /**
    `probe`: the collector is built only once the arguments are read, and
    `generate_latest` drains its generator, so any error it raises ends
    the probe with nothing encoded.
   */
  function ProbeResult<R>(query: Query, agent: Agent<R>): ProbeOutcome<R> {
    match ProbeArgs(query)
    case Failure(f) => Raised(f)
    case Success(req) =>
      var y := Collection(req.target, agent(req.target, req.user, req.password));
      if y.raised.Some? then Raised(DeviceFault(y.raised.value)) else Scraped(y.families)
  }

  /** `probe`, step by step: read the arguments, build the collector, collect. */
  method ServeProbe<R>(query: Query, agent: Agent<R>) returns (outcome: ProbeOutcome<R>)
    ensures outcome == ProbeResult(query, agent)
  {
    var target := FirstValue(query, "target");
    if target.Failure? {
      return Raised(target.error);
    }
    var user := FirstValue(query, "user");
    if user.Failure? {
      return Raised(user.error);
    }
    var password := FirstValue(query, "pass");
    if password.Failure? {
      return Raised(password.error);
    }
    var collector := new RaritanPduCollector(target.value, user.value, password.value);
    var yielded := collector.Collect(agent);
    if yielded.raised.Some? {
      return Raised(DeviceFault(yielded.raised.value));
    }
    outcome := Scraped(yielded.families);
  }

  /** A request missing an argument fails the same way whatever the device would answer: it is never reached. */
  lemma BadQueryNeverReachesDevice<R>(query: Query, agent: Agent<R>, other: Agent<R>)
    requires ProbeArgs(query).Failure?
    ensures ProbeResult(query, agent) == ProbeResult(query, other) == Raised(ProbeArgs(query).error)
    ensures ProbeResult(query, agent).failure.MissingKey? || ProbeResult(query, agent).failure.NoValue?
  {
  }

  /**
    A probe yields metrics exactly when its three arguments are present and
    every call on the device they reach succeeds; then it hands on the
    three families, each sample labelled first by the requested target.
   */
  lemma ProbeScrapesIff<R>(query: Query, agent: Agent<R>)
    ensures ProbeResult(query, agent).Scraped? <==>
              && ProbeArgs(query).Success?
              && Healthy(agent(query["target"][0], query["user"][0], query["pass"][0]))
    ensures ProbeResult(query, agent).Scraped? ==>
              var snapshot := ProbeResult(query, agent).snapshot;
              && |snapshot| == 3
              && forall k, j :: 0 <= k < 3 && 0 <= j < |snapshot[k].samples| ==>
                   |snapshot[k].samples[j].labelValues| == 2 && snapshot[k].samples[j].labelValues[0] == query["target"][0]
  {
    if ProbeArgs(query).Success? {
      var req := ProbeArgs(query).value;
      CollectionSucceedsIffHealthy(req.target, agent(req.target, req.user, req.password));
      YieldedFamiliesWellFormed(req.target, agent(req.target, req.user, req.password));
    }
  }

  /** A probe that fails at the device reports the first call, in traversal order, that failed. */
  lemma ProbeReportsFirstFault<R>(query: Query, agent: Agent<R>)
    requires ProbeArgs(query).Success?
    ensures var req := ProbeArgs(query).value;
      var calls := Calls(agent(req.target, req.user, req.password));
      ProbeResult(query, agent).Raised? <==> FirstFault(calls).Some?
    ensures var req := ProbeArgs(query).value;
      var calls := Calls(agent(req.target, req.user, req.password));
      ProbeResult(query, agent).Raised? ==> ProbeResult(query, agent).failure == DeviceFault(FirstFault(calls).value)
  {
    var req := ProbeArgs(query).value;
    RaisedIsFirstFault(req.target, agent(req.target, req.user, req.password));
  }
}
