/** The values the health collector reads and writes: the configured node and
    service descriptors, the raw outcomes of the four probes, and the records
    of the report it assembles. */
module Health {

  import opened Wrappers

  /** The closed status vocabulary of every record. */
  datatype Level = Ok | Warn | Bad | Unknown {

    /** The word the report carries for the level. */
    function Name(): (s: string)
      ensures s in {"ok", "warn", "bad", "unknown"}
    {
      match this
      case Ok => "ok"
      case Warn => "warn"
      case Bad => "bad"
      case Unknown => "unknown"
    }
  }

  /** Reads a status word back; anything outside the vocabulary is None. */
  function ParseLevel(s: string): Option<Level> {
    if s == "ok" then Some(Ok)
    else if s == "warn" then Some(Warn)
    else if s == "bad" then Some(Bad)
    else if s == "unknown" then Some(Unknown)
    else None
  }

  /** The status words are distinct: each one reads back as its level. */
  lemma LevelNameRoundTrip(l: Level)
    ensures ParseLevel(l.Name()) == Some(l)
  {
  }

  /** The `{status, latency_ms, detail}` dictionary a probe branch produces.
      Latency is in milliseconds and None when the check measured nothing. */
  datatype ProbeResult = ProbeResult(status: Level, latencyMs: Option<nat>, detail: string)

  /** What the HTTP(S) exchange of `check_http_service` came to. */
  datatype HttpOutcome =
    | Response(code: int, latencyMs: nat)  // getresponse() returned this status
    | ConstructFailed(error: string)       // creating the connection object raised
    | ExchangeFailed(error: string)        // request() or getresponse() raised

  /** What `socket.create_connection` came to in `check_tcp_service`. */
  datatype TcpOutcome =
    | Connected(latencyMs: nat)
    | SocketError(error: string)

  /** The captured text output of `systemctl is-active <unit>`. */
  datatype SystemctlOutput = SystemctlOutput(stdout: string, stderr: string)

  /** The outside world the collector probes: ping latency per host (None when
      the host did not answer), and the outcome of each kind of service check. */
  datatype Network = Network(
    ping: string -> Option<nat>,
    http: (string, int, string, bool) -> HttpOutcome,
    tcp: (string, int) -> TcpOutcome,
    systemctl: string -> SystemctlOutput)

  /** A configured node. `name`, `host`, `role` and `os` are looked up by
      indexing, so a node without one of them is not a descriptor at all. */
  datatype NodeDescriptor = NodeDescriptor(name: string, host: string, role: string, os: string)

  /** A configured service: every field is optional and None when the
      configuration leaves it out. */
  datatype ServiceDescriptor = ServiceDescriptor(
    name: Option<string>,
    serviceType: Option<string>,
    host: Option<string>,
    port: Option<int>,
    path: Option<string>,
    unit: Option<string>)

  /** The dictionary produced for one node. */
  datatype NodeRecord = NodeRecord(
    name: string,
    role: string,
    os: string,
    status: Level,
    latencyMs: Option<nat>,
    lastSeen: Option<string>)

  /** The normalized dictionary produced for one service. */
  datatype ServiceRecord = ServiceRecord(
    name: string,
    serviceType: string,
    host: Option<string>,
    port: Option<int>,
    status: Level,
    latencyMs: Option<nat>,
    detail: string,
    checkedAt: string)

  /** The `{generated_at, nodes, services}` report. */
  datatype Report = Report(generatedAt: string, nodes: seq<NodeRecord>, services: seq<ServiceRecord>)

  /** Python truthiness of an optional string: present and non-empty. */
  predicate Truthy(o: Option<string>) {
    o.Some? && o.value != ""
  }

  /** Python truthiness of an optional integer: present and non-zero. */
  predicate TruthyPort(o: Option<int>) {
    o.Some? && o.value != 0
  }

  /** Python's `value or default` on an optional string. */
  function OrElse(o: Option<string>, default: string): (r: string)
    ensures Truthy(o) ==> r == o.value
    ensures !Truthy(o) ==> r == default
    ensures default != "" ==> r != ""
  {
    if Truthy(o) then o.value else default
  }
}
