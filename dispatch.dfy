/** `check_service`: fills in the defaults of a service descriptor, validates
    the fields its type needs, runs the matching probe, and builds one
    normalized service record. */
module Dispatch {

  import opened Wrappers
  import opened Text
  import opened Health
  import opened Probes

  const UnnamedService := "Unnamed service"
  const DefaultType := "http"
  const DefaultPath := "/"

  const MissingHostPort := ProbeResult(Unknown, None, "Missing host/port")
  const MissingUnit := ProbeResult(Unknown, None, "Missing unit")
  const UnknownType := ProbeResult(Unknown, None, "Unknown type")

  /** The record name: the configured one, or "Unnamed service" when it is
      absent or empty. */
  function ServiceName(d: ServiceDescriptor): (name: string)
    ensures name != ""
    ensures Truthy(d.name) ==> name == d.name.value
    ensures !Truthy(d.name) ==> name == UnnamedService
  {
    OrElse(d.name, UnnamedService)
  }

  /** The normalized type: the configured one lower-cased, or "http" when it is
      absent or empty. It is never empty and always lower-case, so asking for
      it again on a record changes nothing. */
  function ServiceType(d: ServiceDescriptor): (t: string)
    ensures t != "" && IsLowerCase(t)
    ensures Truthy(d.serviceType) ==> t == Lower(d.serviceType.value)
    ensures !Truthy(d.serviceType) ==> t == DefaultType
  {
    LowerFixesLowerCase(DefaultType);
    Lower(OrElse(d.serviceType, DefaultType))
  }

  /** The request path: the configured one, or "/" when it is absent or empty. */
  function ServicePath(d: ServiceDescriptor): (path: string)
    ensures path != ""
    ensures Truthy(d.path) ==> path == d.path.value
    ensures !Truthy(d.path) ==> path == DefaultPath
  {
    OrElse(d.path, DefaultPath)
  }

  /** A probe to run, with the arguments it is called with. */
  datatype Probe =
    | HttpProbe(host: string, port: int, path: string, useHttps: bool)
    | TcpProbe(host: string, port: int)
    | SystemdProbe(unit: string)

  /** Where a descriptor leads: a result settled without probing anything, or
      a probe to run. */
  datatype Route = Settled(result: ProbeResult) | Run(probe: Probe)

  predicate IsNetworkType(t: string) {
    t == "http" || t == "https" || t == "tcp"
  }

  /** The branch `check_service` takes. Required fields are validated before
      any probe is chosen: a network type without a truthy host and port, or a
      systemd type without a truthy unit, settles as unknown, and so does a
      type outside the four known ones. */
  function RouteOf(d: ServiceDescriptor): (route: Route)
    ensures route.Settled? <==>
      || (IsNetworkType(ServiceType(d)) && (!Truthy(d.host) || !TruthyPort(d.port)))
      || (ServiceType(d) == "systemd" && !Truthy(d.unit))
      || (!IsNetworkType(ServiceType(d)) && ServiceType(d) != "systemd")
    ensures route.Settled? ==> route.result.status == Unknown && route.result.latencyMs == None
    ensures route.Run? && route.probe.HttpProbe? <==>
      (ServiceType(d) == "http" || ServiceType(d) == "https") && Truthy(d.host) && TruthyPort(d.port)
    ensures route.Run? && route.probe.TcpProbe? <==>
      ServiceType(d) == "tcp" && Truthy(d.host) && TruthyPort(d.port)
    ensures route.Run? && route.probe.SystemdProbe? <==> ServiceType(d) == "systemd" && Truthy(d.unit)
  {
    var t := ServiceType(d);
    if t == "http" || t == "https" then
      if !Truthy(d.host) || !TruthyPort(d.port) then Settled(MissingHostPort)
      else Run(HttpProbe(d.host.value, d.port.value, ServicePath(d), t == "https"))
    else if t == "tcp" then
      if !Truthy(d.host) || !TruthyPort(d.port) then Settled(MissingHostPort)
      else Run(TcpProbe(d.host.value, d.port.value))
    else if t == "systemd" then
      if !Truthy(d.unit) then Settled(MissingUnit)
      else Run(SystemdProbe(d.unit.value))
    else Settled(UnknownType)
  }

  /** Runs a probe against the network and classifies its outcome. A probe
      never reports unknown. */
  function RunProbe(p: Probe, net: Network): (r: ProbeResult)
    ensures r.status != Unknown
  {
    match p
    case HttpProbe(host, port, path, useHttps) => HttpServiceResult(net.http(host, port, path, useHttps))
    case TcpProbe(host, port) => TcpServiceResult(net.tcp(host, port))
    case SystemdProbe(unit) => SystemdServiceResult(net.systemctl(unit))
  }

  /** `check_service`: one normalized record for a descriptor. Name, type and
      timestamp are normalized, host and port are copied verbatim, and the
      status is unknown exactly when no probe was run. */
  function CheckService(d: ServiceDescriptor, now: string, net: Network): (r: ServiceRecord)
    ensures r.name == ServiceName(d) && r.serviceType == ServiceType(d)
    ensures r.host == d.host && r.port == d.port
    ensures r.checkedAt == now
    ensures r.status == Unknown <==> RouteOf(d).Settled?
  {
    var result := match RouteOf(d)
      case Settled(res) => res
      case Run(p) => RunProbe(p, net);
    ServiceRecord(ServiceName(d), ServiceType(d), d.host, d.port,
                  result.status, result.latencyMs, result.detail, now)
  }

  /** A settled descriptor's record does not depend on the network at all: no
      probe was consulted. */
  lemma SettledIgnoresNetwork(d: ServiceDescriptor, now: string, net1: Network, net2: Network)
    requires RouteOf(d).Settled?
    ensures CheckService(d, now, net1) == CheckService(d, now, net2)
  {
  }

  /** An http, https or tcp service without a truthy host or port is reported
      unknown with "Missing host/port" and no latency, and no probe is run. */
  lemma MissingHostPortIsUnknown(d: ServiceDescriptor, now: string, net: Network)
    requires IsNetworkType(ServiceType(d))
    requires !Truthy(d.host) || !TruthyPort(d.port)
    ensures RouteOf(d) == Settled(MissingHostPort)
    ensures var r := CheckService(d, now, net);
      r.status == Unknown && r.latencyMs == None && r.detail == "Missing host/port"
  {
  }

  /** A systemd service without a truthy unit is reported unknown with
      "Missing unit", and no probe is run. */
  lemma MissingUnitIsUnknown(d: ServiceDescriptor, now: string, net: Network)
    requires ServiceType(d) == "systemd" && !Truthy(d.unit)
    ensures RouteOf(d) == Settled(MissingUnit)
    ensures var r := CheckService(d, now, net);
      r.status == Unknown && r.latencyMs == None && r.detail == "Missing unit"
  {
  }

  /** A type outside http, https, tcp and systemd is reported unknown with
      "Unknown type", whatever the other fields hold. */
  lemma UnknownTypeIsUnknown(d: ServiceDescriptor, now: string, net: Network)
    requires !IsNetworkType(ServiceType(d)) && ServiceType(d) != "systemd"
    ensures RouteOf(d) == Settled(UnknownType)
    ensures var r := CheckService(d, now, net);
      r.status == Unknown && r.latencyMs == None && r.detail == "Unknown type"
  {
  }

  /** A complete http or https service is probed once with its host, port and
      path (defaulting to "/"), over HTTPS exactly when its type is "https",
      and its record carries that probe's status, latency and detail. */
  lemma HttpServiceIsProbed(d: ServiceDescriptor, now: string, net: Network)
    requires ServiceType(d) == "http" || ServiceType(d) == "https"
    requires Truthy(d.host) && TruthyPort(d.port)
    ensures var useHttps := ServiceType(d) == "https";
      var res := HttpServiceResult(net.http(d.host.value, d.port.value, ServicePath(d), useHttps));
      var r := CheckService(d, now, net);
      r.status == res.status && r.latencyMs == res.latencyMs && r.detail == res.detail
  {
  }

  /** A complete tcp service is probed once with its host and port. */
  lemma TcpServiceIsProbed(d: ServiceDescriptor, now: string, net: Network)
    requires ServiceType(d) == "tcp" && Truthy(d.host) && TruthyPort(d.port)
    ensures var res := TcpServiceResult(net.tcp(d.host.value, d.port.value));
      var r := CheckService(d, now, net);
      r.status == res.status && r.latencyMs == res.latencyMs && r.detail == res.detail
  {
  }

  /** A systemd service with a unit is checked through `systemctl is-active`
      for that unit. */
  lemma SystemdServiceIsProbed(d: ServiceDescriptor, now: string, net: Network)
    requires ServiceType(d) == "systemd" && Truthy(d.unit)
    ensures var res := SystemdServiceResult(net.systemctl(d.unit.value));
      var r := CheckService(d, now, net);
      r.status == res.status && r.latencyMs == res.latencyMs && r.detail == res.detail
  {
  }

  /** The declared type is read case-insensitively: two descriptors that differ
      only in the letter case of their type give the same record. */
  lemma TypeCaseInsensitive(d: ServiceDescriptor, t1: string, t2: string, now: string, net: Network)
    requires Lower(t1) == Lower(t2)
    ensures CheckService(d.(serviceType := Some(t1)), now, net) == CheckService(d.(serviceType := Some(t2)), now, net)
  {
    assert t1 == "" <==> t2 == "";
  }

  /** The name plays no part in the check: renaming a service changes neither
      its status nor its detail. */
  lemma NameDoesNotAffectStatus(d: ServiceDescriptor, name: Option<string>, now: string, net: Network)
    ensures CheckService(d.(name := name), now, net).status == CheckService(d, now, net).status
    ensures CheckService(d.(name := name), now, net).detail == CheckService(d, now, net).detail
  {
  }

  /** The service of the repository's own test: named "Missing", type "http",
      no host and no port. */
  lemma MissingHostPortExample(now: string, net: Network)
    ensures var r := CheckService(ServiceDescriptor(Some("Missing"), Some("http"), None, None, None, None), now, net);
      r.status == Unknown && r.detail == "Missing host/port" && r.name == "Missing"
  {
    var d := ServiceDescriptor(Some("Missing"), Some("http"), None, None, None, None);
    LowerFixesLowerCase("http");
    MissingHostPortIsUnknown(d, now, net);
  }

  /** A service "web" of type "http" at 10.0.0.3:8080 that answers 200 is
      reported ok with detail "HTTP 200" and the measured latency. */
  lemma HttpOkExample(now: string, net: Network, latency: nat)
    requires net.http("10.0.0.3", 8080, "/", false) == Response(200, latency)
    ensures CheckService(ServiceDescriptor(Some("web"), Some("http"), Some("10.0.0.3"), Some(8080), None, None), now, net)
      == ServiceRecord("web", "http", Some("10.0.0.3"), Some(8080), Ok, Some(latency), "HTTP 200", now)
  {
    LowerFixesLowerCase("http");
    assert NatToString(2) == "2";
    assert NatToString(20) == "20";
    assert IntToString(200) == "200";
  }
}
