/** The records of the plugin (data.go) and the pure helpers that derive them:
    the container descriptor as the container runtime reports it, the derived
    ContainerData, the discovery options, the label names (setup.go) and the
    network allow-list rule. */
module Records {
  import opened Wrappers
  import opened IpAddr

  const HostLabel := "coredns.dockerdns.host"
  const NetworkLabel := "coredns.dockerdns.network"
  const EnableLabel := "coredns.dockerdns.enable"
  const ProjectLabel := "com.docker.compose.project"
  const ServiceLabel := "com.docker.compose.service"
  const StackNamespaceLabel := "com.docker.stack.namespace"

  datatype Error =
    | InspectFailed(containerId: string)      // the runtime does not know the container
    | NamespaceTooDeep                        // too many "container:" network-mode hops
    | NoNetworkSettings(containerId: string)  // no permitted or labelled network
    | NoIPv4(containerId: string)
    | EmptyName
    | NotInOrigins(name: string)
    | ListTasksFailed
    | ArgErr
    | BadNumber(text: string)
    | TtlOutOfRange(ttl: int)
    | UnknownDirective(name: string)
    | NoForwardZone
    | OriginsMismatch

  /** One network endpoint of a container (dockerapi.ContainerNetwork). */
  datatype Network = Network(ipAddress: string, globalIPv6Address: string)

  /** An inspected container (dockerapi.Container), reduced to the fields the
      plugin reads. `networks` lists NetworkSettings.Networks in the order the
      plugin happens to iterate that map. */
  datatype Container = Container(
    id: string,
    name: string,
    hostname: string,
    labels: map<string, string>,
    ipAddress: string,
    globalIPv6Address: string,
    networkMode: string,
    networks: seq<(string, Network)>)

  datatype ContainerData = ContainerData(
    name: string,
    id: string,
    hostname: string,
    labeledHost: string,
    networks: seq<string>,
    labeledNetwork: string,
    enabled: bool,
    project: string,
    service: string,
    ipv4: seq<IP>,
    ipv6: seq<IP>,
    hosts: seq<string>)

  /** dnsControlOpts, with `autoReverse` (the reverse-index switch) kept here. */
  datatype Options = Options(
    byDomain: bool,
    byHostname: bool,
    byLabel: bool,
    byComposeDomain: bool,
    enabledByDefault: bool,
    fromNetworks: seq<string>,
    autoReverse: bool)

  const EmptyData := ContainerData("", "", "", "", [], "", false, "", "", [], [], [])

  /** A Go map lookup: the value, or "" when the key is absent. */
  function Label(labels: map<string, string>, key: string): string {
    if key in labels then labels[key] else ""
  }

  /** newContainerConfig: the record fields read from labels; everything else empty. */
  function NewContainerConfig(c: Container): (d: ContainerData)
    ensures d.enabled <==> EnableLabel in c.labels && c.labels[EnableLabel] == "true"
    ensures d.labeledHost == (if HostLabel in c.labels then c.labels[HostLabel] else "")
    ensures d.labeledNetwork == (if NetworkLabel in c.labels then c.labels[NetworkLabel] else "")
    ensures d.project == (if ProjectLabel in c.labels then c.labels[ProjectLabel] else "")
    ensures d.service == (if ServiceLabel in c.labels then c.labels[ServiceLabel] else "")
    ensures d.id == d.name == d.hostname == "" && d.networks == []
    ensures d.ipv4 == d.ipv6 == [] && d.hosts == []
  {
    EmptyData.(
      labeledHost := Label(c.labels, HostLabel),
      labeledNetwork := Label(c.labels, NetworkLabel),
      enabled := Label(c.labels, EnableLabel) == "true",
      project := Label(c.labels, ProjectLabel),
      service := Label(c.labels, ServiceLabel))
  }

  /** The search loop of permittedNetwork over a non-empty allow-list. */
  function AnyPermits(fromNetworks: seq<string>, network: string, labeledNetwork: string): (r: bool)
    ensures r <==> network in fromNetworks || (labeledNetwork != "" && labeledNetwork in fromNetworks)
  {
    if fromNetworks == [] then false
    else
      var n := fromNetworks[0];
      (n == network || (labeledNetwork != "" && n == labeledNetwork))
      || AnyPermits(fromNetworks[1..], network, labeledNetwork)
  }

  /** permittedNetwork: an empty allow-list permits every network; otherwise a
      network is permitted when it is listed, and every network is permitted
      when the container's labelled network is listed. */
  function PermittedNetwork(network: string, labeledNetwork: string, fromNetworks: seq<string>): (r: bool)
    ensures fromNetworks == [] ==> r
    ensures fromNetworks != [] ==>
      (r <==> network in fromNetworks || (labeledNetwork != "" && labeledNetwork in fromNetworks))
    ensures labeledNetwork != "" && labeledNetwork in fromNetworks ==> r
  {
    if |fromNetworks| == 0 then true else AnyPermits(fromNetworks, network, labeledNetwork)
  }
}
