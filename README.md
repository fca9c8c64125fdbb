# Homedeck health collector, modelled in Dafny

Homedeck is a home-lab dashboard. Its collector reads a list of nodes and a
list of services from its configuration and probes each one. Nodes get a ping.
Services get an HTTP(S) GET, a TCP connect, or a `systemctl is-active` query.
The collector then returns one report: `{generated_at, nodes, services}`.
Every status in the report is one of `ok`, `warn`, `bad` or `unknown`.

This project models the collector's decision logic. The probes themselves are
network and process I/O, so they become a `Network` value: four total
functions that give the outcome of a ping, an HTTP exchange, a TCP connect and
a `systemctl` call. The clock reading `now` is an opaque string argument.

Modules, one per component:

- `Wrappers` (wrappers.dfy): `Option`, Python's `None` or a present value.
- `Text` (text.dfy): `str.strip()`, ASCII `str.lower()` and `str(int)`, with
  their inverses and laws.
- `Health` (health.dfy): the descriptors, the raw probe outcomes, the status
  levels and the records of the report. It also holds Python truthiness of
  optional fields and `x or default`.
- `Probes` (probes.dfy): the HTTP, TCP and systemd classifiers. Also an
  `HttpConnection` class and the `CheckHttpService` method, which always
  closes the connection it opened.
- `Dispatch` (dispatch.dfy): `check_service`. It fills in defaults, validates
  fields before any probe, chooses the probe by type, and builds the
  normalized record.
- `Collector` (collector.dfy): `collect`. A loop builds the node records; a
  sequence comprehension builds the service records, as the source's list
  comprehension does.

The collector keeps nodes and services in separate lists. Nodes are only
pinged; service types are `http`, `https`, `tcp` and `systemd`.

## Model

| member | source | states |
|---|---|---|
| `Text.Strip` | collector.py:157 | the stripped text has no whitespace at either end, and it is empty exactly when the input is all whitespace, so it is Python-false exactly then |
| `Text.StripPadded` | collector.py:157 | stripping removes exactly the surrounding whitespace: a trimmed word padded on both sides strips back to the word |
| `Text.StripIdempotent` | collector.py:157 | stripping twice is stripping once |
| `Text.Lower` | collector.py:179 | lower-casing keeps the length, maps each character by ASCII lower-casing, and yields a string with no upper-case letter |
| `Text.LowerIdempotent` | collector.py:179 | lower-casing a normalized type again changes nothing |
| `Text.IntToString` | collector.py:102 | `str(code)`: a minus sign exactly for a negative code, then decimal digits without leading zeros |
| `Text.IntToStringRoundTrip` | collector.py:102 | the decimal text of a status code reads back as that code, so the rendering loses nothing |
| `Text.IntToStringInjective` | collector.py:102 | two different codes never give the same text |
| `Health.Level.Name` | collector.py:103-108 | each level is reported as one of the four words "ok", "warn", "bad", "unknown" |
| `Health.Truthy` | collector.py:186 | an optional text field is truthy exactly when it is present and non-empty |
| `Health.TruthyPort` | collector.py:186 | an optional port is truthy exactly when it is present and non-zero |
| `Health.LevelNameRoundTrip` | collector.py:103-108 | the four status words are distinct and each reads back as its level |
| `Health.OrElse` | collector.py:178-182 | `value or default` yields the value when it is present and non-empty, else the default, and is never empty when the default is not |
| `Probes.HttpServiceResult` | collector.py:102-111 | a response is ok iff 200 <= code < 400, warn iff 400 <= code < 500, bad otherwise, with the measured latency and detail "HTTP " + code; a connection error is bad with no latency and the error text; never unknown |
| `Probes.HttpDetailNamesCode` | collector.py:102 | the detail of a response reads back as exactly its status code |
| `Probes.HttpStatusFollowsDetail` | collector.py:102-108 | two responses with the same detail have the same status |
| `Probes.HttpConnection.constructor` | collector.py:98 | a new connection points at the given host, port and scheme, is open and has issued no request |
| `Probes.HttpConnection.Request` | collector.py:99 | a request is appended to the connection's request log and leaves it open |
| `Probes.HttpConnection.Close` | collector.py:113-114 | closing marks the connection closed and keeps its log |
| `Probes.CheckHttpService` | collector.py:92-114 | the result equals `HttpServiceResult` of the outcome; a connection exists exactly when constructing it did not raise, and then it is fresh, closed on every exit path, uses HTTPS exactly when asked, and carried exactly one `GET path`; path defaults to "/" and the scheme to plain HTTP |
| `Probes.HttpDefaultsExample` | tests/test_collector.py:8-62 | with the defaults, example.com:80 is asked `GET /` over HTTP and a 200 gives ok, "HTTP 200" and a latency; with path "/status" a 404 gives warn, "HTTP 404" |
| `Probes.TcpServiceResult` | collector.py:128-138 | ok iff the connection was made, with latency and detail "TCP OK"; otherwise bad with no latency and the socket error text; never unknown |
| `Probes.SystemdState` | collector.py:157 | the state is stripped stdout if that is not all whitespace, else stripped stderr if that is not all whitespace, else "unknown"; it is never empty and never padded |
| `Probes.SystemdServiceResult` | collector.py:157-164 | ok iff the state is "active", warn iff it is activating, reloading or deactivating, bad otherwise; detail is the state and latency is always None |
| `Probes.SystemdReadsStdoutLine` | collector.py:151-159 | a state word printed with a trailing newline is reported as that word whatever stderr holds, and "active" gives ok |
| `Probes.SystemdSilentUnitIsBad` | collector.py:157-164 | a unit with blank stdout and stderr is reported as bad, "unknown", with no latency |
| `Dispatch.ServiceName` | collector.py:178 | the name is the configured one, or "Unnamed service" when absent or empty |
| `Dispatch.ServiceType` | collector.py:179 | the type is the configured one lower-cased, or "http" when absent or empty; it is non-empty and lower-case |
| `Dispatch.ServicePath` | collector.py:182 | the path is the configured one, or "/" when absent or empty |
| `Dispatch.RouteOf` | collector.py:185-209 | no probe is chosen exactly when a network type lacks a truthy host or port, a systemd type lacks a truthy unit, or the type is unknown; such a result is unknown with no latency; each probe kind is chosen exactly for its types with complete fields |
| `Dispatch.RunProbe` | collector.py:193-207 | a probe that runs never reports unknown |
| `Dispatch.CheckService` | collector.py:211-220 | the record carries the normalized name and type, the host and port verbatim, `checked_at` = now, and is unknown exactly when no probe ran |
| `Dispatch.SettledIgnoresNetwork` | collector.py:185-209 | when validation settles the result, the record is the same whatever the network would answer: no probe was consulted |
| `Dispatch.MissingHostPortIsUnknown` | collector.py:185-200 | http, https or tcp without a truthy host or port gives unknown, "Missing host/port", no latency |
| `Dispatch.MissingUnitIsUnknown` | collector.py:203-205 | systemd without a truthy unit gives unknown, "Missing unit", no latency |
| `Dispatch.UnknownTypeIsUnknown` | collector.py:208-209 | any other type gives unknown, "Unknown type", no latency |
| `Dispatch.HttpServiceIsProbed` | collector.py:185-193 | a complete http or https service is probed with its host, port and path (default "/"), over HTTPS exactly for type "https", and the record carries that probe's status, latency and detail |
| `Dispatch.TcpServiceIsProbed` | collector.py:194-202 | a complete tcp service is probed with its host and port, and the record carries that probe's result |
| `Dispatch.SystemdServiceIsProbed` | collector.py:203-207 | a systemd service with a unit is checked for that unit, and the record carries that result |
| `Dispatch.TypeCaseInsensitive` | collector.py:179 | declared types that differ only in letter case give the same record |
| `Dispatch.NameDoesNotAffectStatus` | collector.py:178-209 | renaming a service changes neither its status nor its detail |
| `Dispatch.MissingHostPortExample` | tests/test_collector.py:99-103 | the test's service named "Missing" of type "http" without host and port is unknown with "Missing host/port" |
| `Dispatch.HttpOkExample` | collector.py:185-220 | a web service at 10.0.0.3:8080 answering HTTP 200 gives the full ok record with detail "HTTP 200" and the measured latency |
| `Collector.Collect` | collector.py:223-260 | the report is stamped `now`; it has one node record per node in order (ok and last seen now when the ping answered, bad with no last-seen time when not, name, role, os and latency copied) and one `check_service` record per service in order; every timestamp in it equals `generated_at` |
| `Collector.CollectedHasSingleInstant` | collector.py:230-260 | in a collected report every service's `checked_at` and every non-null `last_seen` equals `generated_at` |
| `Collector.CollectedIsDeterministic` | collector.py:233-254 | the guarantee of `Collect` determines the report completely |
| `Collector.ShapeIsStable` | collector.py:233-254 | two collections of one configuration, at any times and against any network answers, list the same node names and the same service names and types in the same order |
| `Collector.UnreachableNodeExample` | collector.py:234-251 | a node "pi" at 10.0.0.2 that does not answer the ping is reported as bad, edge, linux, with no latency and no last-seen time |

## Left out

- Ping, HTTP, TCP and systemctl I/O (collector.py:14-32, 95-100, 130, 151-156): these are network and process calls. Their outcomes come in as the `Network` functions. A `Network` is deterministic, so the model does not capture two probes of one target answering differently within one collection, or the order in which the probes run.
- Latency timing and `round(..., 1)`: these read a wall clock and use floats. A latency is a `nat` that the outcome supplies and the record copies.
- `datetime.now(...).isoformat()`: the clock. `now` is an argument of `Collect`.
- `load_config`, `load_nodes`, `load_services` (collector.py:35-74): file I/O and a YAML parser. `Collect` takes the parsed lists.
- app.py: web routing and static file serving.
- The text of Python exception messages: an error is an opaque string in the outcome.
- `Text.Lower`: lower-cases the ASCII letters only, because Python's full Unicode `str.lower()` mapping is not modelled.
- `Text.Strip`: strips the ASCII whitespace only (the characters below U+0080 that `str.isspace()` accepts), because Unicode whitespace is not modelled.
- Descriptor values of other YAML types: a service's text fields are optional strings and its port an optional integer. A truthy non-string `type` would make `.lower()` raise, and a text port would go through `int()` and could raise. Neither crash is modelled. A node missing `name`, `host`, `role` or `os` makes the source raise `KeyError`; a `NodeDescriptor` always has all four.
- Exceptions that the probes do not catch: for example, a missing `systemctl` binary, or an HTTP error outside `OSError` and `HTTPException`. These would end the whole collection.
- The TCP socket's release: `with socket.create_connection(...)` closes it on exit, and the model does not represent the socket object. Connection release is modelled for HTTP only.
- The HTTP status-code range that `http.client` accepts: a code outside 100-999 makes it raise `BadStatusLine`, which the source reports as bad with the error text. The model takes any integer code that a `Response` outcome carries.
