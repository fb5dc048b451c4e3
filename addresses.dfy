/** Address extraction (dockerdiscovery.go, getContainerAddresses and
    addressesFromNetwork): the IPv4 and IPv6 addresses a container publishes,
    after following "container:<id>" network modes to the container whose
    network stack it shares, and after the network-label override or the
    network allow-list has chosen the networks that count. The runtime's
    inspect call is a lookup in `docker`, a snapshot of the containers the
    runtime knows; the number of hops is bounded by `fuel`. */
module Addresses {
  import opened Wrappers
  import opened Strings
  import opened IpAddr
  import opened Records

  datatype Addrs = Addrs(ipv4: seq<IP>, ipv6: seq<IP>)

  const ContainerModePrefix := "container:"

  /** addressesFromNetwork: the endpoint's IPv4 and IPv6 literals, each appended
      when it parses; what was collected before is kept. */
  function AddressesFromNetwork(n: Network, acc: Addrs): (r: Addrs)
    ensures |acc.ipv4| <= |r.ipv4| <= |acc.ipv4| + 1 && r.ipv4[..|acc.ipv4|] == acc.ipv4
    ensures |acc.ipv6| <= |r.ipv6| <= |acc.ipv6| + 1 && r.ipv6[..|acc.ipv6|] == acc.ipv6
    ensures |r.ipv4| > |acc.ipv4| <==> n.ipAddress != "" && ParseIP(n.ipAddress).Some?
    ensures |r.ipv4| > |acc.ipv4| ==> r.ipv4[|acc.ipv4|] == ParseIP(n.ipAddress).value
    ensures |r.ipv6| > |acc.ipv6| <==> n.globalIPv6Address != "" && ParseIP(n.globalIPv6Address).Some?
    ensures |r.ipv6| > |acc.ipv6| ==> r.ipv6[|acc.ipv6|] == ParseIP(n.globalIPv6Address).value
  {
    var v4 := if |n.ipAddress| > 0 && ParseIP(n.ipAddress).Some?
      then acc.ipv4 + [ParseIP(n.ipAddress).value] else acc.ipv4;
    var v6 := if |n.globalIPv6Address| > 0 && ParseIP(n.globalIPv6Address).Some?
      then acc.ipv6 + [ParseIP(n.globalIPv6Address).value] else acc.ipv6;
    Addrs(v4, v6)
  }

  /** The container-level addresses, read at every hop unless the original
      container carries the network label. */
  function TopLevelAddresses(c: Container, hasNetName: bool, acc: Addrs): (r: Addrs)
    ensures hasNetName ==> r == acc
  {
    var v4 := if c.ipAddress != "" && !hasNetName && ParseIP(c.ipAddress).Some?
      then acc.ipv4 + [ParseIP(c.ipAddress).value] else acc.ipv4;
    var v6 := if c.globalIPv6Address != "" && !hasNetName && ParseIP(c.globalIPv6Address).Some?
      then acc.ipv6 + [ParseIP(c.globalIPv6Address).value] else acc.ipv6;
    Addrs(v4, v6)
  }

  /** Without the network label, the container's IPAddress and
      GlobalIPv6Address are each appended, after what was collected, exactly
      when they are non-empty and parse. */
  lemma TopLevelAddressesSpec(c: Container, hasNetName: bool, acc: Addrs)
    ensures var r := TopLevelAddresses(c, hasNetName, acc);
      && |acc.ipv4| <= |r.ipv4| <= |acc.ipv4| + 1 && r.ipv4[..|acc.ipv4|] == acc.ipv4
      && |acc.ipv6| <= |r.ipv6| <= |acc.ipv6| + 1 && r.ipv6[..|acc.ipv6|] == acc.ipv6
      && (|r.ipv4| > |acc.ipv4| <==> !hasNetName && c.ipAddress != "" && ParseIP(c.ipAddress).Some?)
      && (|r.ipv4| > |acc.ipv4| ==> r.ipv4[|acc.ipv4|] == ParseIP(c.ipAddress).value)
      && (|r.ipv6| > |acc.ipv6| <==> !hasNetName && c.globalIPv6Address != "" && ParseIP(c.globalIPv6Address).Some?)
      && (|r.ipv6| > |acc.ipv6| ==> r.ipv6[|acc.ipv6|] == ParseIP(c.globalIPv6Address).value)
  {
  }

  /** The first loop of getContainerAddresses: collect container-level
      addresses and follow "container:<id>" network modes; the result is the
      container that owns the network stack and what was collected. */
  function Follow(docker: map<string, Container>, c: Container, hasNetName: bool, acc: Addrs, fuel: nat)
    : (r: Result<(Container, Addrs), Error>)
    decreases fuel
  {
    var acc' := TopLevelAddresses(c, hasNetName, acc);
    if ContainerModePrefix <= c.networkMode then
      var other := c.networkMode[|ContainerModePrefix|..];
      if fuel == 0 then Failure(NamespaceTooDeep)
      else if other !in docker then Failure(InspectFailed(other))
      else Follow(docker, docker[other], hasNetName, acc', fuel - 1)
    else Success((c, acc'))
  }

  /** The network of the given name (a Go map lookup). */
  function LookupNetwork(networks: seq<(string, Network)>, name: string): (r: Option<Network>)
    ensures r.Some? <==> exists i :: 0 <= i < |networks| && networks[i].0 == name
    ensures r.Some? ==> exists i :: 0 <= i < |networks| && networks[i] == (name, r.value)
  {
    if networks == [] then None
    else if networks[0].0 == name then Some(networks[0].1)
    else
      var r := LookupNetwork(networks[1..], name);
      assert forall i :: 0 <= i < |networks| - 1 ==> networks[1..][i] == networks[i + 1];
      r
  }

  /** Some network passes the allow-list. */
  predicate AnyPermitted(networks: seq<(string, Network)>, labeledNetwork: string, fromNetworks: seq<string>) {
    exists i :: 0 <= i < |networks| && PermittedNetwork(networks[i].0, labeledNetwork, fromNetworks)
  }

  /** The addresses of the permitted networks, in iteration order, after `acc`. */
  function PermittedAddresses(networks: seq<(string, Network)>, labeledNetwork: string,
                              fromNetworks: seq<string>, acc: Addrs): Addrs
  {
    if networks == [] then acc
    else
      var prev := PermittedAddresses(networks[..|networks| - 1], labeledNetwork, fromNetworks, acc);
      var (name, n) := networks[|networks| - 1];
      if PermittedNetwork(name, labeledNetwork, fromNetworks) then AddressesFromNetwork(n, prev) else prev
  }

  lemma PermittedSnoc(networks: seq<(string, Network)>, i: int, labeledNetwork: string,
                      fromNetworks: seq<string>, acc: Addrs)
    requires 0 <= i < |networks|
    ensures PermittedAddresses(networks[..i + 1], labeledNetwork, fromNetworks, acc) ==
      if PermittedNetwork(networks[i].0, labeledNetwork, fromNetworks)
      then AddressesFromNetwork(networks[i].1, PermittedAddresses(networks[..i], labeledNetwork, fromNetworks, acc))
      else PermittedAddresses(networks[..i], labeledNetwork, fromNetworks, acc)
    ensures AnyPermitted(networks[..i + 1], labeledNetwork, fromNetworks) <==>
      AnyPermitted(networks[..i], labeledNetwork, fromNetworks) || PermittedNetwork(networks[i].0, labeledNetwork, fromNetworks)
  {
    assert networks[..i + 1][..i] == networks[..i];
  }

  /** getContainerAddresses, as a function of the runtime snapshot. */
  function ContainerAddresses(docker: map<string, Container>, fromNetworks: seq<string>, c: Container, fuel: nat)
    : Result<Addrs, Error>
  {
    var hasNetName := NetworkLabel in c.labels;
    var labeledNetwork := Label(c.labels, NetworkLabel);
    match Follow(docker, c, hasNetName, Addrs([], []), fuel)
    case Failure(e) => Failure(e)
    case Success((owner, acc)) =>
      if hasNetName then
        match LookupNetwork(owner.networks, labeledNetwork)
        case Some(n) => Success(AddressesFromNetwork(n, acc))
        case None => Failure(NoNetworkSettings(owner.id))
      else if AnyPermitted(owner.networks, labeledNetwork, fromNetworks) then
        Success(PermittedAddresses(owner.networks, labeledNetwork, fromNetworks, acc))
      else Failure(NoNetworkSettings(owner.id))
  }

  /** The first loop of getContainerAddresses: collect and follow network modes. */
  method FollowNetworkMode(docker: map<string, Container>, container: Container, hasNetName: bool, fuel: nat)
    returns (r: Result<(Container, Addrs), Error>)
    ensures r == Follow(docker, container, hasNetName, Addrs([], []), fuel)
  {
    var c, acc, f := container, Addrs([], []), fuel;
    while true
      invariant Follow(docker, container, hasNetName, Addrs([], []), fuel) == Follow(docker, c, hasNetName, acc, f)
      decreases f
    {
      acc := TopLevelAddresses(c, hasNetName, acc);
      if !(ContainerModePrefix <= c.networkMode) {
        return Success((c, acc));
      }
      if f == 0 {
        return Failure(NamespaceTooDeep);
      }
      var other := c.networkMode[|ContainerModePrefix|..];
      if other !in docker {
        return Failure(InspectFailed(other));
      }
      c, f := docker[other], f - 1;
    }
  }

  /** The allow-list loop of getContainerAddresses over the owner's networks. */
  method CollectPermitted(networks: seq<(string, Network)>, labeledNetwork: string,
                          fromNetworks: seq<string>, collected: Addrs)
    returns (acc: Addrs, ok: bool)
    ensures acc == PermittedAddresses(networks, labeledNetwork, fromNetworks, collected)
    ensures ok <==> AnyPermitted(networks, labeledNetwork, fromNetworks)
  {
    acc, ok := collected, false;
    for i := 0 to |networks|
      invariant acc == PermittedAddresses(networks[..i], labeledNetwork, fromNetworks, collected)
      invariant ok <==> AnyPermitted(networks[..i], labeledNetwork, fromNetworks)
    {
      PermittedSnoc(networks, i, labeledNetwork, fromNetworks, collected);
      var (name, network) := networks[i];
      if !PermittedNetwork(name, labeledNetwork, fromNetworks) {
        continue;
      }
      acc := AddressesFromNetwork(network, acc);
      ok := true;
    }
    assert networks[..|networks|] == networks;
  }

  /** getContainerAddresses */
  method GetContainerAddresses(docker: map<string, Container>, fromNetworks: seq<string>, container: Container, fuel: nat)
    returns (r: Result<Addrs, Error>)
    ensures r == ContainerAddresses(docker, fromNetworks, container, fuel)
  {
    var hasNetName := NetworkLabel in container.labels;
    var labeledNetwork := Label(container.labels, NetworkLabel);
    var followed := FollowNetworkMode(docker, container, hasNetName, fuel);
    if followed.Failure? {
      return Failure(followed.error);
    }
    var (c, acc) := followed.value;
    var ok := false;
    if hasNetName {
      var network := LookupNetwork(c.networks, labeledNetwork);
      if network.Some? {
        acc := AddressesFromNetwork(network.value, acc);
        ok := true;
      }
    } else {
      acc, ok := CollectPermitted(c.networks, labeledNetwork, fromNetworks, acc);
    }
    if !ok {
      return Failure(NoNetworkSettings(c.id));
    }
    return Success(acc);
  }

  /** With the network label present, the container-level addresses are never collected. */
  lemma {:induction false} FollowKeepsNothing(docker: map<string, Container>, c: Container, acc: Addrs, fuel: nat)
    ensures Follow(docker, c, true, acc, fuel).Success? ==> Follow(docker, c, true, acc, fuel).value.1 == acc
    decreases fuel
  {
    if ContainerModePrefix <= c.networkMode && fuel > 0 {
      var other := c.networkMode[|ContainerModePrefix|..];
      if other in docker {
        FollowKeepsNothing(docker, docker[other], acc, fuel - 1);
      }
    }
  }

  /** The network label overrides everything else: container-level addresses
      are ignored, only the labelled network of the container that owns the
      network stack contributes, and its absence is an error. */
  lemma LabelledNetworkOnly(docker: map<string, Container>, fromNetworks: seq<string>, c: Container, fuel: nat)
    requires NetworkLabel in c.labels
    ensures match Follow(docker, c, true, Addrs([], []), fuel)
      case Failure(e) => ContainerAddresses(docker, fromNetworks, c, fuel) == Failure(e)
      case Success((owner, _)) =>
        ContainerAddresses(docker, fromNetworks, c, fuel) ==
          match LookupNetwork(owner.networks, c.labels[NetworkLabel])
          case Some(n) => Success(AddressesFromNetwork(n, Addrs([], [])))
          case None => Failure(NoNetworkSettings(owner.id))
  {
    FollowKeepsNothing(docker, c, Addrs([], []), fuel);
  }

  /** `ip` is the parsed IPv4 field of some permitted network in `networks`. */
  predicate IPv4FromPermitted(networks: seq<(string, Network)>, labeledNetwork: string, fromNetworks: seq<string>, ip: IP)
  {
    exists i :: 0 <= i < |networks| && PermittedNetwork(networks[i].0, labeledNetwork, fromNetworks) && ParseIP(networks[i].1.ipAddress) == Some(ip)
  }

  /** `ip` is the parsed global IPv6 field of some permitted network in `networks`. */
  predicate IPv6FromPermitted(networks: seq<(string, Network)>, labeledNetwork: string, fromNetworks: seq<string>, ip: IP)
  {
    exists i :: 0 <= i < |networks| && PermittedNetwork(networks[i].0, labeledNetwork, fromNetworks) && ParseIP(networks[i].1.globalIPv6Address) == Some(ip)
  }

  /** Every address the permitted networks add after `acc` was parsed from a
      permitted network; the addresses in `acc` are kept in front. */
  lemma {:induction false} PermittedAddressesFrom(networks: seq<(string, Network)>, labeledNetwork: string,
                                                  fromNetworks: seq<string>, acc: Addrs)
    ensures var r := PermittedAddresses(networks, labeledNetwork, fromNetworks, acc);
      && |acc.ipv4| <= |r.ipv4| && r.ipv4[..|acc.ipv4|] == acc.ipv4
      && |acc.ipv6| <= |r.ipv6| && r.ipv6[..|acc.ipv6|] == acc.ipv6
      && (forall k :: |acc.ipv4| <= k < |r.ipv4| ==> IPv4FromPermitted(networks, labeledNetwork, fromNetworks, r.ipv4[k]))
      && (forall k :: |acc.ipv6| <= k < |r.ipv6| ==> IPv6FromPermitted(networks, labeledNetwork, fromNetworks, r.ipv6[k]))
  {
    if networks != [] {
      var init := networks[..|networks| - 1];
      var last := |networks| - 1;
      PermittedAddressesFrom(init, labeledNetwork, fromNetworks, acc);
      var prev := PermittedAddresses(init, labeledNetwork, fromNetworks, acc);
      var r := PermittedAddresses(networks, labeledNetwork, fromNetworks, acc);
      PrefixTrans(acc.ipv4, prev.ipv4, r.ipv4);
      PrefixTrans(acc.ipv6, prev.ipv6, r.ipv6);
      forall k | |acc.ipv4| <= k < |r.ipv4|
        ensures IPv4FromPermitted(networks, labeledNetwork, fromNetworks, r.ipv4[k])
      {
        if k < |prev.ipv4| {
          assert r.ipv4[k] == r.ipv4[..|prev.ipv4|][k];
          assert IPv4FromPermitted(init, labeledNetwork, fromNetworks, prev.ipv4[k]);
          var i :| 0 <= i < |init| && PermittedNetwork(init[i].0, labeledNetwork, fromNetworks) && ParseIP(init[i].1.ipAddress) == Some(prev.ipv4[k]);
          assert networks[i] == init[i];
        } else {
          assert PermittedNetwork(networks[last].0, labeledNetwork, fromNetworks) && ParseIP(networks[last].1.ipAddress) == Some(r.ipv4[k]);
        }
      }
      forall k | |acc.ipv6| <= k < |r.ipv6|
        ensures IPv6FromPermitted(networks, labeledNetwork, fromNetworks, r.ipv6[k])
      {
        if k < |prev.ipv6| {
          assert r.ipv6[k] == r.ipv6[..|prev.ipv6|][k];
          assert IPv6FromPermitted(init, labeledNetwork, fromNetworks, prev.ipv6[k]);
          var i :| 0 <= i < |init| && PermittedNetwork(init[i].0, labeledNetwork, fromNetworks) && ParseIP(init[i].1.globalIPv6Address) == Some(prev.ipv6[k]);
          assert networks[i] == init[i];
        } else {
          assert PermittedNetwork(networks[last].0, labeledNetwork, fromNetworks) && ParseIP(networks[last].1.globalIPv6Address) == Some(r.ipv6[k]);
        }
      }
    }
  }

  /** Every permitted network's parsable IPAddress and GlobalIPv6Address end
      up among the collected addresses. */
  lemma {:induction false} PermittedAddressesComplete(networks: seq<(string, Network)>, labeledNetwork: string,
                                                      fromNetworks: seq<string>, acc: Addrs, i: int)
    requires 0 <= i < |networks| && PermittedNetwork(networks[i].0, labeledNetwork, fromNetworks)
    ensures var r := PermittedAddresses(networks, labeledNetwork, fromNetworks, acc);
      && (networks[i].1.ipAddress != "" && ParseIP(networks[i].1.ipAddress).Some? ==>
            ParseIP(networks[i].1.ipAddress).value in r.ipv4)
      && (networks[i].1.globalIPv6Address != "" && ParseIP(networks[i].1.globalIPv6Address).Some? ==>
            ParseIP(networks[i].1.globalIPv6Address).value in r.ipv6)
  {
    var init := networks[..|networks| - 1];
    var prev := PermittedAddresses(init, labeledNetwork, fromNetworks, acc);
    var r := PermittedAddresses(networks, labeledNetwork, fromNetworks, acc);
    if i < |networks| - 1 {
      assert init[i] == networks[i];
      PermittedAddressesComplete(init, labeledNetwork, fromNetworks, acc, i);
      assert |prev.ipv4| <= |r.ipv4| && r.ipv4[..|prev.ipv4|] == prev.ipv4;
      assert |prev.ipv6| <= |r.ipv6| && r.ipv6[..|prev.ipv6|] == prev.ipv6;
      SubseqMembers(prev.ipv4, r.ipv4);
      SubseqMembers(prev.ipv6, r.ipv6);
    }
  }

  /** The members of a prefix are members of the whole. */
  lemma SubseqMembers<T>(a: seq<T>, b: seq<T>)
    requires |a| <= |b| && b[..|a|] == a
    ensures forall x :: x in a ==> x in b
  {
    forall x | x in a ensures x in b {
      var j :| 0 <= j < |a| && a[j] == x;
      assert b[j] == b[..|a|][j];
    }
  }

  /** AllowListDecides for one outcome of the network-mode chain. */
  lemma AllowListOutcome(docker: map<string, Container>, fromNetworks: seq<string>, c: Container, fuel: nat,
                         owner: Container, collected: Addrs)
    requires NetworkLabel !in c.labels
    requires Follow(docker, c, false, Addrs([], []), fuel) == Success((owner, collected))
    ensures var r := ContainerAddresses(docker, fromNetworks, c, fuel);
      && (r.Failure? <==> forall i :: 0 <= i < |owner.networks| ==> !PermittedNetwork(owner.networks[i].0, "", fromNetworks))
      && (r.Failure? ==> r.error == NoNetworkSettings(owner.id))
      && (r.Success? ==>
           && |collected.ipv4| <= |r.value.ipv4| && r.value.ipv4[..|collected.ipv4|] == collected.ipv4
           && |collected.ipv6| <= |r.value.ipv6| && r.value.ipv6[..|collected.ipv6|] == collected.ipv6
           && (forall k :: |collected.ipv4| <= k < |r.value.ipv4| ==> IPv4FromPermitted(owner.networks, "", fromNetworks, r.value.ipv4[k]))
           && (forall k :: |collected.ipv6| <= k < |r.value.ipv6| ==> IPv6FromPermitted(owner.networks, "", fromNetworks, r.value.ipv6[k]))
           && (forall i :: (0 <= i < |owner.networks| && PermittedNetwork(owner.networks[i].0, "", fromNetworks)
                 && owner.networks[i].1.ipAddress != "" && ParseIP(owner.networks[i].1.ipAddress).Some?) ==>
                 ParseIP(owner.networks[i].1.ipAddress).value in r.value.ipv4)
           && (forall i :: (0 <= i < |owner.networks| && PermittedNetwork(owner.networks[i].0, "", fromNetworks)
                 && owner.networks[i].1.globalIPv6Address != "" && ParseIP(owner.networks[i].1.globalIPv6Address).Some?) ==>
                 ParseIP(owner.networks[i].1.globalIPv6Address).value in r.value.ipv6))
  {
    var networks := owner.networks;
    var permitted := PermittedAddresses(networks, "", fromNetworks, collected);
    assert Label(c.labels, NetworkLabel) == "";
    assert ContainerAddresses(docker, fromNetworks, c, fuel) ==
      if AnyPermitted(networks, "", fromNetworks) then Success(permitted) else Failure(NoNetworkSettings(owner.id));
    PermittedAddressesFrom(networks, "", fromNetworks, collected);
    forall i | 0 <= i < |networks| && PermittedNetwork(networks[i].0, "", fromNetworks)
      ensures networks[i].1.ipAddress != "" && ParseIP(networks[i].1.ipAddress).Some? ==>
        ParseIP(networks[i].1.ipAddress).value in permitted.ipv4
      ensures networks[i].1.globalIPv6Address != "" && ParseIP(networks[i].1.globalIPv6Address).Some? ==>
        ParseIP(networks[i].1.globalIPv6Address).value in permitted.ipv6
    {
      PermittedAddressesComplete(networks, "", fromNetworks, collected, i);
    }
  }

  /** Without the network label, extraction fails exactly when no network of
      the owning container passes the allow-list (a permitted network without
      addresses still counts); on success the container-level addresses come
      first, every other address comes from a permitted network, and every
      permitted network's parsable addresses are there. */
  lemma AllowListDecides(docker: map<string, Container>, fromNetworks: seq<string>, c: Container, fuel: nat)
    requires NetworkLabel !in c.labels
    ensures match Follow(docker, c, false, Addrs([], []), fuel)
      case Failure(e) => ContainerAddresses(docker, fromNetworks, c, fuel) == Failure(e)
      case Success((owner, collected)) =>
        var r := ContainerAddresses(docker, fromNetworks, c, fuel);
        && (r.Failure? <==> forall i :: 0 <= i < |owner.networks| ==> !PermittedNetwork(owner.networks[i].0, "", fromNetworks))
        && (r.Success? ==>
             && |collected.ipv4| <= |r.value.ipv4| && r.value.ipv4[..|collected.ipv4|] == collected.ipv4
             && |collected.ipv6| <= |r.value.ipv6| && r.value.ipv6[..|collected.ipv6|] == collected.ipv6
             && (forall k :: |collected.ipv4| <= k < |r.value.ipv4| ==> IPv4FromPermitted(owner.networks, "", fromNetworks, r.value.ipv4[k]))
             && (forall k :: |collected.ipv6| <= k < |r.value.ipv6| ==> IPv6FromPermitted(owner.networks, "", fromNetworks, r.value.ipv6[k]))
             && (forall i :: (0 <= i < |owner.networks| && PermittedNetwork(owner.networks[i].0, "", fromNetworks)
                   && owner.networks[i].1.ipAddress != "" && ParseIP(owner.networks[i].1.ipAddress).Some?) ==>
                   ParseIP(owner.networks[i].1.ipAddress).value in r.value.ipv4)
             && (forall i :: (0 <= i < |owner.networks| && PermittedNetwork(owner.networks[i].0, "", fromNetworks)
                   && owner.networks[i].1.globalIPv6Address != "" && ParseIP(owner.networks[i].1.globalIPv6Address).Some?) ==>
                   ParseIP(owner.networks[i].1.globalIPv6Address).value in r.value.ipv6))
  {
    var followed := Follow(docker, c, false, Addrs([], []), fuel);
    if followed.Success? {
      AllowListOutcome(docker, fromNetworks, c, fuel, followed.value.0, followed.value.1);
    }
  }
}
