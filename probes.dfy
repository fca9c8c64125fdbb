/** The three service probes of the collector, each taken from the raw outcome
    of its network or process call to the `{status, latency_ms, detail}`
    result: HTTP(S) by status-code range, TCP by whether the handshake
    completed, and a systemd unit by its activation state. */
module Probes {

  import opened Wrappers
  import opened Text
  import opened Health

  const HttpDetailPrefix := "HTTP "

  /** The result `check_http_service` returns for an exchange outcome. */
  function HttpServiceResult(outcome: HttpOutcome): (r: ProbeResult)
    ensures r.status != Unknown
    ensures outcome.Response? ==>
      && (r.status == Ok <==> 200 <= outcome.code < 400)
      && (r.status == Warn <==> 400 <= outcome.code < 500)
      && (r.status == Bad <==> outcome.code < 200 || 500 <= outcome.code)
      && r.latencyMs == Some(outcome.latencyMs)
      && r.detail == HttpDetailPrefix + IntToString(outcome.code)
    ensures !outcome.Response? ==> r == ProbeResult(Bad, None, outcome.error)
  {
    match outcome
    case Response(code, latency) =>
      var status := if 200 <= code < 400 then Ok else if 400 <= code < 500 then Warn else Bad;
      ProbeResult(status, Some(latency), HttpDetailPrefix + IntToString(code))
    case ConstructFailed(error) => ProbeResult(Bad, None, error)
    case ExchangeFailed(error) => ProbeResult(Bad, None, error)
  }

  /** Reads the status code back out of an `"HTTP <code>"` detail. */
  function StatusCodeOf(detail: string): Option<int> {
    if |detail| >= |HttpDetailPrefix| && detail[..|HttpDetailPrefix|] == HttpDetailPrefix
    then ParseInt(detail[|HttpDetailPrefix|..])
    else None
  }

  /** The detail of a received response names its status code exactly, and the
      status level is then determined by the detail alone. */
  lemma HttpDetailNamesCode(outcome: HttpOutcome)
    requires outcome.Response?
    ensures StatusCodeOf(HttpServiceResult(outcome).detail) == Some(outcome.code)
  {
    var d := HttpServiceResult(outcome).detail;
    assert d[|HttpDetailPrefix|..] == IntToString(outcome.code);
    IntToStringRoundTrip(outcome.code);
  }

  /** Two received responses with the same detail have the same status. */
  lemma HttpStatusFollowsDetail(o1: HttpOutcome, o2: HttpOutcome)
    requires o1.Response? && o2.Response?
    requires HttpServiceResult(o1).detail == HttpServiceResult(o2).detail
    ensures HttpServiceResult(o1).status == HttpServiceResult(o2).status
  {
    HttpDetailNamesCode(o1);
    HttpDetailNamesCode(o2);
  }

  /** An HTTP(S) connection object. It remembers where it points and which
      requests were issued on it, and whether it has been closed. */
  class HttpConnection {
    const host: string
    const port: int
    const secure: bool
    var requests: seq<(string, string)>
    var closed: bool

    constructor (host: string, port: int, secure: bool)
      ensures this.host == host && this.port == port && this.secure == secure
      ensures requests == [] && !closed
    {
      this.host := host;
      this.port := port;
      this.secure := secure;
      requests := [];
      closed := false;
    }

    /** Issues `verb path` on the connection. */
    method Request(verb: string, path: string)
      requires !closed
      modifies this
      ensures requests == old(requests) + [(verb, path)]
      ensures !closed
    {
      requests := requests + [(verb, path)];
    }

    method Close()
      modifies this
      ensures closed
      ensures requests == old(requests)
    {
      closed := true;
    }
  }

  /** `check_http_service`: creates an HTTP or HTTPS connection, sends one GET
      for `path`, and classifies what came back; a connection that was created
      is closed on every path out, and the result is the one
      HttpServiceResult gives for the outcome. */
  method CheckHttpService(outcome: HttpOutcome, host: string, port: int, path: string := "/", useHttps: bool := false)
    returns (r: ProbeResult, connection: HttpConnection?)
    ensures r == HttpServiceResult(outcome)
    ensures connection == null <==> outcome.ConstructFailed?
    ensures connection != null ==>
      && fresh(connection)
      && connection.closed
      && connection.host == host && connection.port == port && connection.secure == useHttps
      && connection.requests == [("GET", path)]
  {
    connection := null;
    // the try block
    if outcome.ConstructFailed? {
      r := ProbeResult(Bad, None, outcome.error);
    } else {
      connection := new HttpConnection(host, port, useHttps);
      connection.Request("GET", path);
      if outcome.ExchangeFailed? {
        r := ProbeResult(Bad, None, outcome.error);
      } else {
        var code := outcome.code;
        var detail := HttpDetailPrefix + IntToString(code);
        var status;
        if 200 <= code < 400 {
          status := Ok;
        } else if 400 <= code < 500 {
          status := Warn;
        } else {
          status := Bad;
        }
        r := ProbeResult(status, Some(outcome.latencyMs), detail);
      }
    }
    // the finally block
    if connection != null {
      connection.Close();
    }
  }

  /** The repository's own HTTP tests: a plain call for example.com:80 sends
      `GET /` over HTTP and a 200 answer is ok with detail "HTTP 200" and a
      latency; with path "/status" a 404 answer is a warning. */
  method HttpDefaultsExample(latency: nat) returns (ok: ProbeResult, notFound: ProbeResult, paths: seq<string>)
    ensures ok == ProbeResult(Ok, Some(latency), "HTTP 200")
    ensures notFound == ProbeResult(Warn, Some(latency), "HTTP 404")
    ensures paths == ["/", "/status"]
  {
    var c1, c2;
    ok, c1 := CheckHttpService(Response(200, latency), "example.com", 80);
    notFound, c2 := CheckHttpService(Response(404, latency), "example.com", 80, path := "/status");
    assert !c1.secure && !c2.secure;
    paths := [c1.requests[0].1, c2.requests[0].1];
    assert NatToString(20) == "20" && NatToString(40) == "40";
    assert IntToString(200) == "200" && IntToString(404) == "404";
  }

  const TcpOkDetail := "TCP OK"

  /** The result `check_tcp_service` returns for a connection attempt. */
  function TcpServiceResult(outcome: TcpOutcome): (r: ProbeResult)
    ensures r.status != Unknown
    ensures r.status == Ok <==> outcome.Connected?
    ensures r.status == Bad <==> outcome.SocketError?
    ensures outcome.Connected? ==> r.latencyMs == Some(outcome.latencyMs) && r.detail == TcpOkDetail
    ensures outcome.SocketError? ==> r.latencyMs == None && r.detail == outcome.error
  {
    match outcome
    case Connected(latency) => ProbeResult(Ok, Some(latency), TcpOkDetail)
    case SocketError(error) => ProbeResult(Bad, None, error)
  }

  const TransitionalStates: set<string> := {"activating", "reloading", "deactivating"}

  /** The unit state `check_systemd_service` reports: the stripped standard
      output, else the stripped standard error, else "unknown". It is never
      empty and never has whitespace at either end. */
  function SystemdState(out: SystemctlOutput): (state: string)
    ensures state != "" && Trimmed(state)
    ensures !AllSpace(out.stdout) ==> state == Strip(out.stdout)
    ensures AllSpace(out.stdout) && !AllSpace(out.stderr) ==> state == Strip(out.stderr)
    ensures AllSpace(out.stdout) && AllSpace(out.stderr) ==> state == "unknown"
  {
    var o := Strip(out.stdout);
    var e := Strip(out.stderr);
    if o != "" then o else if e != "" then e else "unknown"
  }

  /** The result `check_systemd_service` returns for the output of
      `systemctl is-active`. */
  function SystemdServiceResult(out: SystemctlOutput): (r: ProbeResult)
    ensures r.status != Unknown
    ensures r.detail == SystemdState(out) && r.latencyMs == None
    ensures r.status == Ok <==> r.detail == "active"
    ensures r.status == Warn <==> r.detail in TransitionalStates
    ensures r.status == Bad <==> r.detail != "active" && r.detail !in TransitionalStates
  {
    var state := SystemdState(out);
    var status := if state == "active" then Ok else if state in TransitionalStates then Warn else Bad;
    ProbeResult(status, None, state)
  }

  /** A unit whose standard output is a state word followed by a newline (as
      `systemctl is-active` prints it) is reported with that word, whatever
      the standard error holds; for "active" the status is ok. */
  lemma SystemdReadsStdoutLine(word: string, stderr: string)
    requires word != [] && Trimmed(word)
    ensures SystemdState(SystemctlOutput(word + "\n", stderr)) == word
    ensures word == "active" ==> SystemdServiceResult(SystemctlOutput(word + "\n", stderr)).status == Ok
  {
    StripPadded([], word, "\n");
    assert [] + word + "\n" == word + "\n";
  }

  /** A unit with no output at all is reported as "unknown" and bad. */
  lemma SystemdSilentUnitIsBad(stdout: string, stderr: string)
    requires AllSpace(stdout) && AllSpace(stderr)
    ensures SystemdServiceResult(SystemctlOutput(stdout, stderr)) == ProbeResult(Bad, None, "unknown")
  {
  }
}
