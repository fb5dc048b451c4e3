/** Container records (data.go): turning an inspected container into the
    record the registry stores — its permitted networks, its addresses and
    the host names it answers to. */
module Data {
  import opened Wrappers
  import opened Strings
  import opened DnsName
  import opened Records
  import opened Resolvers
  import opened Addresses

  /** The outcome of parseContainer: the record (filled in as far as the
      parse got) and the error that stopped it, if any. */
  datatype Parsed = Parsed(data: ContainerData, err: Option<Error>)

  /** The host list after addFQDN(name): the name's FQDN is appended unless
      already present; an empty name or one outside the origins is an error. */
  function WithFQDN(hosts: seq<string>, name: string, origins: seq<string>): (r: Result<seq<string>, Error>)
    ensures r.Success? <==> name != "" && InZones(origins, Normalize(name))
    ensures name == "" ==> r == Failure(EmptyName)
    ensures r.Success? ==>
      && IsHostName(origins, Normalize(name)) && Normalize(name) in r.value
      && |hosts| <= |r.value| <= |hosts| + 1 && r.value[..|hosts|] == hosts
      && (forall x :: x in r.value <==> x in hosts || x == Normalize(name))
      && (NoDup(hosts) ==> NoDup(r.value))
    ensures r.Success? && Normalize(name) in hosts ==> r.value == hosts
    ensures r.Success? && Normalize(name) !in hosts ==> r.value == hosts + [Normalize(name)]
  {
    if name == "" then Failure(EmptyName)
    else match ToFQDN(name, origins)
      case Failure(e) => Failure(e)
      case Success(n) => if n in hosts then Success(hosts) else Success(hosts + [n])
  }

  /** addFQDN: the duplicate search is the loop over the current hosts. */
  method AddFQDN(name: string, origins: seq<string>, d: ContainerData) returns (r: ContainerData, err: Option<Error>)
    ensures match WithFQDN(d.hosts, name, origins)
      case Success(h) => err == None && r == d.(hosts := h)
      case Failure(e) => err == Some(e) && r == d
  {
    if name == "" {
      return d, Some(EmptyName);
    }
    var fq := ToFQDN(name, origins);
    if fq.Failure? {
      return d, Some(fq.error);
    }
    var n := fq.value;
    for i := 0 to |d.hosts|
      invariant n !in d.hosts[..i]
    {
      if d.hosts[i] == n {
        return d, None;
      }
    }
    assert d.hosts[..|d.hosts|] == d.hosts;
    return d.(hosts := d.hosts + [n]), None;
  }

  /** The candidate domains resolveHosts collects, in the order it collects
      them: the container name, its hostname, and service.project. */
  function Candidates(d: ContainerData, opts: Options): (r: seq<string>)
    ensures |r| <= 3 && forall i :: 0 <= i < |r| ==> r[i] != ""
    ensures opts.byDomain && d.name != "" ==> d.name in r
    ensures opts.byHostname && d.hostname != "" ==> d.hostname in r
    ensures opts.byComposeDomain && d.service != "" && d.project != "" ==> d.service + "." + d.project in r
    ensures forall x :: x in r ==>
      || (opts.byDomain && x == d.name)
      || (opts.byHostname && x == d.hostname)
      || (opts.byComposeDomain && d.service != "" && d.project != "" && x == d.service + "." + d.project)
  {
    (if opts.byDomain && d.name != "" then [d.name] else [])
    + (if opts.byHostname && d.hostname != "" then [d.hostname] else [])
    + (if opts.byComposeDomain && d.service != "" && d.project != "" then [d.service + "." + d.project] else [])
  }

  /** The record after resolveHosts: the FQDNs of the candidates (when there
      are any), then the labelled host name; a failing label is ignored. */
  function ResolvedHosts(d: ContainerData, opts: Options, rzones: seq<string>, origins: seq<string>): (r: ContainerData)
    ensures r == d.(hosts := r.hosts)
  {
    var domains := Candidates(d, opts);
    var d1 := if domains != [] then d.(hosts := FQDNs(domains, rzones, origins)) else d;
    if d1.labeledHost == "" then d1
    else match WithFQDN(d1.hosts, d1.labeledHost, origins)
      case Success(h) => d1.(hosts := h)
      case Failure(_) => d1
  }

  /** resolveHosts */
  method ResolveHosts(d: ContainerData, opts: Options, rzones: seq<string>, origins: seq<string>) returns (r: ContainerData)
    ensures r == ResolvedHosts(d, opts, rzones, origins)
  {
    r := d;
    var domains: seq<string> := [];
    if opts.byDomain && r.name != "" {
      domains := domains + [r.name];
    }
    if opts.byHostname && r.hostname != "" {
      domains := domains + [r.hostname];
    }
    if opts.byComposeDomain && r.service != "" && r.project != "" {
      domains := domains + [r.service + "." + r.project];
    }
    assert domains == Candidates(d, opts);
    if |domains| != 0 {
      var hosts := MakeFQDNs(domains, rzones, origins);
      r := r.(hosts := hosts);
    }
    assert r.labeledHost == d.labeledHost;
    if r.labeledHost != "" {
      var ignored;
      r, ignored := AddFQDN(r.labeledHost, origins, r);
    }
  }

  /** The names of the container's networks that pass permittedNetwork, in
      iteration order. */
  function PermittedNames(networks: seq<(string, Network)>, labeledNetwork: string, fromNetworks: seq<string>)
    : (r: seq<string>)
    ensures |r| <= |networks|
    ensures fromNetworks == [] ==> |r| == |networks|
    ensures forall x :: x in r <==>
      exists i :: 0 <= i < |networks| && networks[i].0 == x && PermittedNetwork(x, labeledNetwork, fromNetworks)
  {
    if networks == [] then []
    else
      var init := networks[..|networks| - 1];
      var prev := PermittedNames(init, labeledNetwork, fromNetworks);
      var (name, _) := networks[|networks| - 1];
      if PermittedNetwork(name, labeledNetwork, fromNetworks) then prev + [name] else prev
  }

  /** The loop of parseContainer that collects the permitted network names. */
  method CollectPermitted(networks: seq<(string, Network)>, labeledNetwork: string, fromNetworks: seq<string>)
    returns (names: seq<string>)
    ensures names == PermittedNames(networks, labeledNetwork, fromNetworks)
  {
    names := [];
    for i := 0 to |networks|
      invariant names == PermittedNames(networks[..i], labeledNetwork, fromNetworks)
    {
      assert networks[..i + 1][..i] == networks[..i];
      var (name, _) := networks[i];
      if !PermittedNetwork(name, labeledNetwork, fromNetworks) {
        continue;
      }
      names := names + [name];
    }
    assert networks[..|networks|] == networks;
  }

  /** parseContainer, as a function of the runtime snapshot. */
  function ParseContainerSpec(docker: map<string, Container>, opts: Options, rzones: seq<string>,
                              origins: seq<string>, c: Container, fuel: nat): Parsed
  {
    var d0 := NewContainerConfig(c);
    var d := d0.(networks := PermittedNames(c.networks, d0.labeledNetwork, opts.fromNetworks),
                 name := NormalizeContainerName(c), id := c.id, hostname := c.hostname);
    match ContainerAddresses(docker, opts.fromNetworks, c, fuel)
    case Failure(e) => Parsed(d, Some(e))
    case Success(a) =>
      if a.ipv4 == [] then Parsed(d, Some(NoIPv4(c.id)))
      else Parsed(ResolvedHosts(d.(ipv4 := a.ipv4, ipv6 := a.ipv6), opts, rzones, origins), None)
  }

  /** parseContainer */
  method ParseContainer(docker: map<string, Container>, opts: Options, rzones: seq<string>,
                        origins: seq<string>, container: Container, fuel: nat) returns (d: ContainerData, err: Option<Error>)
    ensures Parsed(d, err) == ParseContainerSpec(docker, opts, rzones, origins, container, fuel)
  {
    d := NewContainerConfig(container);
    var networks := CollectPermitted(container.networks, d.labeledNetwork, opts.fromNetworks);
    d := d.(networks := networks, name := NormalizeContainerName(container), id := container.id,
            hostname := container.hostname);
    var addrs := GetContainerAddresses(docker, opts.fromNetworks, container, fuel);
    if addrs.Failure? {
      return d, Some(addrs.error);
    }
    if |addrs.value.ipv4| == 0 {
      return d, Some(NoIPv4(container.id));
    }
    d := d.(ipv4 := addrs.value.ipv4, ipv6 := addrs.value.ipv6);
    d := ResolveHosts(d, opts, rzones, origins);
    return d, None;
  }

  /** resolveHosts changes only the host list, keeps it free of duplicates
      and of names it may not publish, and adds the labelled host whenever
      that name lies under an origin. */
  lemma ResolvedHostsValid(d: ContainerData, opts: Options, rzones: seq<string>, origins: seq<string>)
    requires NoDup(d.hosts) && forall x :: x in d.hosts ==> IsHostName(origins, x)
    ensures var r := ResolvedHosts(d, opts, rzones, origins);
      && r == d.(hosts := r.hosts)
      && NoDup(r.hosts)
      && (forall x :: x in r.hosts ==> IsHostName(origins, x))
      && (d.labeledHost != "" && InZones(origins, Normalize(d.labeledHost)) ==> Normalize(d.labeledHost) in r.hosts)
  {
    var domains := Candidates(d, opts);
    if domains != [] {
      FQDNsSpec(domains, rzones, origins);
    }
  }

  /** Every host resolveHosts produces for a fresh record is the labelled
      host or the FQDN of a candidate joined with a zone suffix. */
  lemma ResolvedHostsSound(d: ContainerData, opts: Options, rzones: seq<string>, origins: seq<string>, x: string)
    requires d.hosts == []
    requires x in ResolvedHosts(d, opts, rzones, origins).hosts
    ensures || (d.labeledHost != "" && x == Normalize(d.labeledHost))
            || exists j, k :: 0 <= j < |Candidates(d, opts)| && 0 <= k < |rzones|
                 && Expand(Candidates(d, opts)[j] + rzones[k], origins) == Some(x)
  {
    var domains := Candidates(d, opts);
    if domains != [] && x in FQDNs(domains, rzones, origins) {
      FQDNsSound(domains, rzones, origins, x);
    }
  }

  /** Every candidate joined with a zone suffix that toFQDN accepts is among
      the hosts. */
  lemma ResolvedHostsComplete(d: ContainerData, opts: Options, rzones: seq<string>, origins: seq<string>, j: int, k: int)
    requires 0 <= j < |Candidates(d, opts)| && 0 <= k < |rzones|
    requires Expand(Candidates(d, opts)[j] + rzones[k], origins).Some?
    ensures Expand(Candidates(d, opts)[j] + rzones[k], origins).value in ResolvedHosts(d, opts, rzones, origins).hosts
  {
    FQDNsComplete(Candidates(d, opts), rzones, origins, j, k);
  }

  /** What parseContainer promises: the identity fields and the permitted
      networks are filled in whatever happens; a failed parse carries no
      addresses and no hosts; the parse succeeds exactly when address
      extraction succeeds with at least one IPv4 address, and then the record
      holds those addresses and a duplicate-free list of publishable hosts. */
  lemma ParseOutcome(docker: map<string, Container>, opts: Options, rzones: seq<string>,
                     origins: seq<string>, c: Container, fuel: nat)
    ensures var p := ParseContainerSpec(docker, opts, rzones, origins, c, fuel);
      var a := ContainerAddresses(docker, opts.fromNetworks, c, fuel);
      && p.data.name == NormalizeContainerName(c) && p.data.id == c.id && p.data.hostname == c.hostname
      && p.data.networks == PermittedNames(c.networks, Label(c.labels, NetworkLabel), opts.fromNetworks)
      && p.data.labeledHost == Label(c.labels, HostLabel)
      && (p.err.Some? ==> p.data.ipv4 == [] && p.data.ipv6 == [] && p.data.hosts == [])
      && (p.err.None? <==> a.Success? && a.value.ipv4 != [])
      && (a.Success? && a.value.ipv4 == [] ==> p.err == Some(NoIPv4(c.id)))
      && (p.err.None? ==>
           && p.data.ipv4 == a.value.ipv4 && p.data.ipv6 == a.value.ipv6
           && NoDup(p.data.hosts)
           && forall x :: x in p.data.hosts ==> IsHostName(origins, x))
  {
    var d0 := NewContainerConfig(c);
    var d := d0.(networks := PermittedNames(c.networks, d0.labeledNetwork, opts.fromNetworks),
                 name := NormalizeContainerName(c), id := c.id, hostname := c.hostname);
    var a := ContainerAddresses(docker, opts.fromNetworks, c, fuel);
    if a.Success? && a.value.ipv4 != [] {
      ResolvedHostsValid(d.(ipv4 := a.value.ipv4, ipv6 := a.value.ipv6), opts, rzones, origins);
    }
  }

  /** A lower-case FQDN under "loc." expands to itself. */
  lemma UnderLoc(s: string)
    requires IsFqdn(s) && NoUpper(s) && HasSuffix(s, ".loc.")
    ensures Normalize(s) == s && InZones(["loc."], s)
    ensures Expand(s, ["loc."]) == Some(s)
  {
    NormalizeFixed(s);
    assert IsSubDomain(["loc."][0], s);
  }

  /** The record of the whoami container of the plugin's own parse test,
      before its hosts are resolved, with the label written "w.loc". */
  const Whoami := ContainerData("whoami", "", "whoami", "w.loc", [], "", false, "dns-proxy", "whoami", [], [], [])

  /** Zone "loc" with every naming option on. */
  const LocOpts := Options(true, true, true, true, false, [], true)

  /** The zone suffixes joined to the whoami candidates. */
  lemma WhoamiJoined()
    ensures Joined(["whoami", "whoami", "whoami.dns-proxy"], [".loc."])
      == ["whoami.loc.", "whoami.loc.", "whoami.dns-proxy.loc."]
  {
    var zs := [".loc."];
    var domains := ["whoami", "whoami", "whoami.dns-proxy"];
    assert "whoami" + ".loc." == "whoami.loc.";
    assert "whoami.dns-proxy" + ".loc." == "whoami.dns-proxy.loc.";
    assert Row("whoami", zs) == ["whoami.loc."];
    assert Row("whoami.dns-proxy", zs) == ["whoami.dns-proxy.loc."];
    assert domains[..1][..0] == [];
    assert domains[..2][..1] == domains[..1];
    assert domains[..2] == domains[..|domains| - 1];
    assert Joined(domains[..1], zs) == ["whoami.loc."];
    assert Joined(domains[..2], zs) == ["whoami.loc.", "whoami.loc."];
  }

  /** Both whoami names lie under "loc.". */
  lemma WhoamiExpands()
    ensures Expand("whoami.loc.", ["loc."]) == Some("whoami.loc.")
    ensures Expand("whoami.dns-proxy.loc.", ["loc."]) == Some("whoami.dns-proxy.loc.")
  {
    UnderLoc("whoami.loc.");
    UnderLoc("whoami.dns-proxy.loc.");
  }

  /** Every joined whoami name is accepted. */
  lemma WhoamiAccepted()
    ensures Accepted(["whoami.loc.", "whoami.loc.", "whoami.dns-proxy.loc."], ["loc."])
      == ["whoami.loc.", "whoami.loc.", "whoami.dns-proxy.loc."]
  {
    WhoamiExpands();
    AcceptedFixed(["whoami.loc.", "whoami.loc.", "whoami.dns-proxy.loc."], ["loc."]);
  }

  /** The repeated whoami name collapses. */
  lemma WhoamiDedup()
    ensures Dedup(["whoami.loc.", "whoami.loc.", "whoami.dns-proxy.loc."]) == ["whoami.loc.", "whoami.dns-proxy.loc."]
  {
    var joined := ["whoami.loc.", "whoami.loc.", "whoami.dns-proxy.loc."];
    assert joined[..1][..0] == [];
    assert joined[..2][..1] == joined[..1];
    assert joined[..2] == joined[..|joined| - 1];
    assert Dedup(joined[..1]) == ["whoami.loc."];
    assert Dedup(joined[..2]) == ["whoami.loc."];
    assert joined[2] !in ["whoami.loc."];
  }

  /** The whoami candidates give two hosts. */
  lemma WhoamiFQDNs()
    ensures FQDNs(["whoami", "whoami", "whoami.dns-proxy"], [".loc."], ["loc."])
      == ["whoami.loc.", "whoami.dns-proxy.loc."]
  {
    WhoamiJoined();
    WhoamiAccepted();
    WhoamiDedup();
  }

  /** The label "w.loc" adds "w.loc." to the two compose hosts. */
  lemma WhoamiLabel()
    ensures WithFQDN(["whoami.loc.", "whoami.dns-proxy.loc."], "w.loc", ["loc."])
      == Success(["whoami.loc.", "whoami.dns-proxy.loc.", "w.loc."])
  {
    UnderLoc("w.loc.");
    assert Fqdn("w.loc") == "w.loc." == Fqdn("w.loc.");
    assert Normalize("w.loc") == Normalize("w.loc.");
    var hosts := ["whoami.loc.", "whoami.dns-proxy.loc."];
    assert "w.loc." !in hosts;
    assert ToFQDN("w.loc", ["loc."]) == Success("w.loc.");
    assert hosts + ["w.loc."] == ["whoami.loc.", "whoami.dns-proxy.loc.", "w.loc."];
  }

  /** The whoami scenario: the container name and hostname give one host,
      the compose service and project another, and the label a third. */
  lemma WhoamiHosts()
    ensures ResolvedHosts(Whoami, LocOpts, [".loc."], ["loc."]).hosts
      == ["whoami.loc.", "whoami.dns-proxy.loc.", "w.loc."]
  {
    assert "whoami" + "." + "dns-proxy" == "whoami.dns-proxy";
    assert Candidates(Whoami, LocOpts) == ["whoami", "whoami", "whoami.dns-proxy"];
    WhoamiFQDNs();
    WhoamiLabel();
  }

  /** With the label written "w", as the plugin's parse test expects, the
      label adds nothing: "w." does not lie under "loc.". */
  lemma BareLabelDropped()
    ensures ResolvedHosts(Whoami.(labeledHost := "w"), LocOpts, [".loc."], ["loc."]).hosts
      == ResolvedHosts(Whoami.(labeledHost := ""), LocOpts, [".loc."], ["loc."]).hosts
  {
    assert Normalize("w") == "w.";
    assert !IsSubDomain(["loc."][0], "w.");
  }
}
