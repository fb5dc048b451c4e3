/** Swarm services (pswarm.go): a service becomes a record like a
    container's, with the virtual IPs of its endpoint and the addresses its
    running tasks hold on permitted networks. */
module Swarm {
  import opened Wrappers
  import opened Strings
  import opened IpAddr
  import opened Records
  import opened Resolvers
  import opened Addresses
  import opened Data

  /** A task's attachment to a network: the network's name and the CIDR
      addresses the task holds on it. */
  datatype Attachment = Attachment(network: string, addresses: seq<string>)

  /** A running task of the service, reduced to its network attachments. */
  datatype Task = Task(attachments: seq<Attachment>)

  /** A swarm service, reduced to the fields the plugin reads: its id, its
      full name, the labels of its container template and the CIDR addresses
      of its endpoint's virtual IPs. */
  datatype Service = Service(id: string, name: string, labels: map<string, string>, virtualIPs: seq<string>)

  /** What extractLabels fills in from the template labels. Its code is not
      part of this model, so its outcome is an input. */
  datatype LabelFields = LabelFields(labeledHost: string, labeledNetwork: string, enabled: bool, project: string, service: string)

  /** Networks and addresses gathered from task attachments. */
  datatype Collected = Collected(networks: seq<string>, addrs: Addrs)

  predicate NoDupIPs(s: seq<IP>) {
    forall i, j :: 0 <= i < j < |s| ==> s[i] != s[j]
  }

  /** ipsContain: the linear search for an equal address. */
  method IpsContain(ips: seq<IP>, ip: IP) returns (found: bool)
    ensures found <==> ip in ips
  {
    for i := 0 to |ips|
      invariant ip !in ips[..i]
    {
      if ips[i] == ip {
        return true;
      }
    }
    assert ips[..|ips|] == ips;
    return false;
  }

  /** The lists after parseCIDR(address): an unparsable address changes
      nothing; an IPv4 address joins the IPv4 list and any other the IPv6
      list, each only when not already there. */
  function WithCIDR(address: string, acc: Addrs): (r: Addrs)
    ensures ParseCIDR(address).None? ==> r == acc
    ensures |acc.ipv4| <= |r.ipv4| <= |acc.ipv4| + 1 && r.ipv4[..|acc.ipv4|] == acc.ipv4
    ensures |acc.ipv6| <= |r.ipv6| <= |acc.ipv6| + 1 && r.ipv6[..|acc.ipv6|] == acc.ipv6
    ensures forall x :: x in r.ipv4 <==> x in acc.ipv4 || (ParseCIDR(address) == Some(x) && x.IPv4?)
    ensures forall x :: x in r.ipv6 <==> x in acc.ipv6 || (ParseCIDR(address) == Some(x) && x.IPv6?)
    ensures NoDupIPs(acc.ipv4) ==> NoDupIPs(r.ipv4)
    ensures NoDupIPs(acc.ipv6) ==> NoDupIPs(r.ipv6)
  {
    match ParseCIDR(address)
    case None => acc
    case Some(ip) =>
      if ip.IPv4? then
        if ip in acc.ipv4 then acc else acc.(ipv4 := acc.ipv4 + [ip])
      else
        if ip in acc.ipv6 then acc else acc.(ipv6 := acc.ipv6 + [ip])
  }

  /** parseCIDR */
  method AddCIDR(address: string, acc: Addrs) returns (r: Addrs)
    ensures r == WithCIDR(address, acc)
  {
    r := acc;
    var addr := ParseCIDR(address);
    if addr.None? {
      return;
    }
    var ip := addr.value;
    if ip.IPv4? {
      var present := IpsContain(r.ipv4, ip);
      if !present {
        r := r.(ipv4 := r.ipv4 + [ip]);
      }
    } else {
      var present := IpsContain(r.ipv6, ip);
      if !present {
        r := r.(ipv6 := r.ipv6 + [ip]);
      }
    }
  }

  /** parseCIDR over a list of addresses, in order. */
  function AddCIDRs(addresses: seq<string>, acc: Addrs): Addrs {
    if addresses == [] then acc
    else WithCIDR(addresses[|addresses| - 1], AddCIDRs(addresses[..|addresses| - 1], acc))
  }

  /** parseCIDR applied to each address in turn (the loop of
      serviceVirtualIPs, and the innermost loop of parseService). */
  method AddCIDRList(addresses: seq<string>, acc: Addrs) returns (r: Addrs)
    ensures r == AddCIDRs(addresses, acc)
  {
    r := acc;
    for i := 0 to |addresses|
      invariant r == AddCIDRs(addresses[..i], acc)
    {
      assert addresses[..i + 1][..i] == addresses[..i];
      r := AddCIDR(addresses[i], r);
    }
    assert addresses[..|addresses|] == addresses;
  }

  /** serviceVirtualIPs */
  method ServiceVirtualIPs(s: Service, acc: Addrs) returns (r: Addrs)
    ensures r == AddCIDRs(s.virtualIPs, acc)
  {
    r := AddCIDRList(s.virtualIPs, acc);
  }

  /** Every task's attachments, task after task. */
  function TaskAttachments(tasks: seq<Task>): seq<Attachment> {
    if tasks == [] then []
    else TaskAttachments(tasks[..|tasks| - 1]) + tasks[|tasks| - 1].attachments
  }

  /** One attachment's contribution: a permitted network adds its name and
      its addresses; any other is skipped. */
  function Attach(col: Collected, a: Attachment, labeledNetwork: string, fromNetworks: seq<string>): Collected {
    if PermittedNetwork(a.network, labeledNetwork, fromNetworks)
    then Collected(col.networks + [a.network], AddCIDRs(a.addresses, col.addrs))
    else col
  }

  /** The attachments' contributions, in order. */
  function Gather(atts: seq<Attachment>, labeledNetwork: string, fromNetworks: seq<string>, start: Collected): Collected {
    if atts == [] then start
    else Attach(Gather(atts[..|atts| - 1], labeledNetwork, fromNetworks, start), atts[|atts| - 1], labeledNetwork, fromNetworks)
  }

  /** The service's name with the first len(project)+1 characters dropped,
      when it is longer than that; "" otherwise. */
  function StrippedName(name: string, project: string): string {
    if |name| > |project| + 1 then name[|project| + 1..] else ""
  }

  /** The record parseService builds from the labels and the name. */
  function ServiceHead(s: Service, extracted: LabelFields): ContainerData {
    var project := Label(s.labels, StackNamespaceLabel);
    var base := EmptyData.(
      id := s.id, labeledHost := extracted.labeledHost, labeledNetwork := extracted.labeledNetwork,
      enabled := extracted.enabled, service := extracted.service, project := project);
    if |s.name| > |project| + 1
    then base.(name := StrippedName(s.name, project), service := StrippedName(s.name, project))
    else base
  }

  /** The record parseService builds before its tasks are listed. */
  function ServiceBase(s: Service, extracted: LabelFields, vips: Addrs): ContainerData {
    ServiceHead(s, extracted).(ipv4 := vips.ipv4, ipv6 := vips.ipv6)
  }

  /** parseService, as a function of the label fields and the task listing. */
  function ParseServiceSpec(opts: Options, rzones: seq<string>, origins: seq<string>,
                            s: Service, extracted: LabelFields, tasks: Result<seq<Task>, Error>): Parsed
  {
    var d := ServiceBase(s, extracted, AddCIDRs(s.virtualIPs, Addrs([], [])));
    match tasks
    case Failure(e) => Parsed(d, Some(e))
    case Success(ts) =>
      var col := Gather(TaskAttachments(ts), d.labeledNetwork, opts.fromNetworks, Collected(d.networks, Addrs(d.ipv4, d.ipv6)));
      Parsed(ResolvedHosts(d.(networks := col.networks, ipv4 := col.addrs.ipv4, ipv6 := col.addrs.ipv6), opts, rzones, origins), None)
  }

  /** The loops of parseService over tasks and their attachments. */
  method GatherTasks(ts: seq<Task>, labeledNetwork: string, fromNetworks: seq<string>, start: Collected)
    returns (col: Collected)
    ensures col == Gather(TaskAttachments(ts), labeledNetwork, fromNetworks, start)
  {
    col := start;
    for i := 0 to |ts|
      invariant col == Gather(TaskAttachments(ts[..i]), labeledNetwork, fromNetworks, start)
    {
      var atts := ts[i].attachments;
      ghost var before := TaskAttachments(ts[..i]);
      assert before + atts[..0] == before;
      for j := 0 to |atts|
        invariant col == Gather(before + atts[..j], labeledNetwork, fromNetworks, start)
      {
        var attachment := atts[j];
        GatherSnoc(before, atts, j, labeledNetwork, fromNetworks, start);
        if !PermittedNetwork(attachment.network, labeledNetwork, fromNetworks) {
          continue;
        }
        col := col.(networks := col.networks + [attachment.network]);
        var addrs := AddCIDRList(attachment.addresses, col.addrs);
        col := col.(addrs := addrs);
      }
      TaskAttachmentsSnoc(ts, i);
      assert atts[..|atts|] == atts;
    }
    assert ts[..|ts|] == ts;
  }

  /** The first half of parseService: the label fields, the stack-stripped
      name and the virtual IPs. */
  method ServiceFields(s: Service, extracted: LabelFields) returns (d: ContainerData)
    ensures d == ServiceBase(s, extracted, AddCIDRs(s.virtualIPs, Addrs([], [])))
  {
    d := EmptyData.(id := s.id);
    var serviceName := s.name;
    d := d.(labeledHost := extracted.labeledHost, labeledNetwork := extracted.labeledNetwork,
            enabled := extracted.enabled, project := extracted.project, service := extracted.service);
    d := d.(project := Label(s.labels, StackNamespaceLabel));
    if |serviceName| > |d.project| + 1 {
      d := d.(name := serviceName[|d.project| + 1..]);
      d := d.(service := d.name);
    }
    assert d == ServiceHead(s, extracted);
    var vips := ServiceVirtualIPs(s, Addrs(d.ipv4, d.ipv6));
    d := d.(ipv4 := vips.ipv4, ipv6 := vips.ipv6);
  }

  /** parseService: the label fields, the name, the virtual IPs, then the
      task attachments and resolveHosts. */
  method ParseService(opts: Options, rzones: seq<string>, origins: seq<string>,
                      s: Service, extracted: LabelFields, tasks: Result<seq<Task>, Error>)
    returns (d: ContainerData, err: Option<Error>)
    ensures Parsed(d, err) == ParseServiceSpec(opts, rzones, origins, s, extracted, tasks)
  {
    d := ServiceFields(s, extracted);
    if tasks.Failure? {
      return d, Some(tasks.error);
    }
    var col := GatherTasks(tasks.value, d.labeledNetwork, opts.fromNetworks, Collected(d.networks, Addrs(d.ipv4, d.ipv6)));
    d := d.(networks := col.networks, ipv4 := col.addrs.ipv4, ipv6 := col.addrs.ipv6);
    d := ResolveHosts(d, opts, rzones, origins);
    return d, None;
  }

  lemma TaskAttachmentsSnoc(ts: seq<Task>, i: int)
    requires 0 <= i < |ts|
    ensures TaskAttachments(ts[..i + 1]) == TaskAttachments(ts[..i]) + ts[i].attachments
  {
    assert ts[..i + 1][..i] == ts[..i];
  }

  lemma GatherSnoc(before: seq<Attachment>, atts: seq<Attachment>, j: int,
                   labeledNetwork: string, fromNetworks: seq<string>, start: Collected)
    requires 0 <= j < |atts|
    ensures Gather(before + atts[..j + 1], labeledNetwork, fromNetworks, start)
      == Attach(Gather(before + atts[..j], labeledNetwork, fromNetworks, start), atts[j], labeledNetwork, fromNetworks)
  {
    var s := before + atts[..j + 1];
    assert s[..|s| - 1] == before + atts[..j];
  }

  /** `x` is the address of one of the CIDR literals. */
  predicate FromCIDRs(addresses: seq<string>, x: IP) {
    SomeMapsTo(addresses, ParseCIDR, Some(x))
  }

  /** parseCIDR over a list keeps what was there and adds exactly the parsed
      addresses, each to the list of its family. */
  lemma {:induction false} AddCIDRsMembers(addresses: seq<string>, acc: Addrs, x: IP)
    ensures x in AddCIDRs(addresses, acc).ipv4 <==> x in acc.ipv4 || (x.IPv4? && FromCIDRs(addresses, x))
    ensures x in AddCIDRs(addresses, acc).ipv6 <==> x in acc.ipv6 || (x.IPv6? && FromCIDRs(addresses, x))
  {
    if addresses != [] {
      AddCIDRsMembers(addresses[..|addresses| - 1], acc, x);
      SomeMapsToSnoc(addresses, ParseCIDR, Some(x));
    }
  }

  /** parseCIDR over a list never introduces a duplicate. */
  lemma {:induction false} AddCIDRsNoDup(addresses: seq<string>, acc: Addrs)
    ensures NoDupIPs(acc.ipv4) ==> NoDupIPs(AddCIDRs(addresses, acc).ipv4)
    ensures NoDupIPs(acc.ipv6) ==> NoDupIPs(AddCIDRs(addresses, acc).ipv6)
  {
    if addresses != [] {
      AddCIDRsNoDup(addresses[..|addresses| - 1], acc);
    }
  }

  /** `x` is an address a task holds on a permitted network. */
  predicate AttachedAddress(atts: seq<Attachment>, labeledNetwork: string, fromNetworks: seq<string>, x: IP) {
    exists i :: 0 <= i < |atts| && PermittedNetwork(atts[i].network, labeledNetwork, fromNetworks) && FromCIDRs(atts[i].addresses, x)
  }

  /** `n` names a permitted network some task is attached to. */
  predicate AttachedNetwork(atts: seq<Attachment>, labeledNetwork: string, fromNetworks: seq<string>, n: string) {
    exists i :: 0 <= i < |atts| && atts[i].network == n && PermittedNetwork(n, labeledNetwork, fromNetworks)
  }

  lemma AttachedNetworkSnoc(atts: seq<Attachment>, labeledNetwork: string, fromNetworks: seq<string>, n: string)
    requires atts != []
    ensures var last := atts[|atts| - 1];
      AttachedNetwork(atts, labeledNetwork, fromNetworks, n) <==>
        || AttachedNetwork(atts[..|atts| - 1], labeledNetwork, fromNetworks, n)
        || (last.network == n && PermittedNetwork(n, labeledNetwork, fromNetworks))
  {
    var init := atts[..|atts| - 1];
    if AttachedNetwork(init, labeledNetwork, fromNetworks, n) {
      var i :| 0 <= i < |init| && init[i].network == n && PermittedNetwork(n, labeledNetwork, fromNetworks);
      assert atts[i] == init[i];
    }
    if AttachedNetwork(atts, labeledNetwork, fromNetworks, n) {
      var i :| 0 <= i < |atts| && atts[i].network == n && PermittedNetwork(n, labeledNetwork, fromNetworks);
      if i < |init| {
        assert init[i] == atts[i];
      }
    }
  }

  lemma AttachedAddressSnoc(atts: seq<Attachment>, labeledNetwork: string, fromNetworks: seq<string>, x: IP)
    requires atts != []
    ensures var last := atts[|atts| - 1];
      AttachedAddress(atts, labeledNetwork, fromNetworks, x) <==>
        || AttachedAddress(atts[..|atts| - 1], labeledNetwork, fromNetworks, x)
        || (PermittedNetwork(last.network, labeledNetwork, fromNetworks) && FromCIDRs(last.addresses, x))
  {
    var init := atts[..|atts| - 1];
    if AttachedAddress(init, labeledNetwork, fromNetworks, x) {
      var i :| 0 <= i < |init| && PermittedNetwork(init[i].network, labeledNetwork, fromNetworks) && FromCIDRs(init[i].addresses, x);
      assert atts[i] == init[i];
    }
    if AttachedAddress(atts, labeledNetwork, fromNetworks, x) {
      var i :| 0 <= i < |atts| && PermittedNetwork(atts[i].network, labeledNetwork, fromNetworks) && FromCIDRs(atts[i].addresses, x);
      if i < |init| {
        assert init[i] == atts[i];
      }
    }
  }

  /** Exactly the permitted networks that tasks are attached to are added. */
  lemma {:induction false} GatherNetworks(atts: seq<Attachment>, labeledNetwork: string, fromNetworks: seq<string>,
                                          start: Collected, n: string)
    ensures n in Gather(atts, labeledNetwork, fromNetworks, start).networks
      <==> n in start.networks || AttachedNetwork(atts, labeledNetwork, fromNetworks, n)
  {
    if atts != [] {
      GatherNetworks(atts[..|atts| - 1], labeledNetwork, fromNetworks, start, n);
      AttachedNetworkSnoc(atts, labeledNetwork, fromNetworks, n);
    }
  }

  /** Only attachments on permitted networks contribute addresses, and every
      one of them does, each address to the list of its family. */
  lemma {:induction false} GatherAddresses(atts: seq<Attachment>, labeledNetwork: string, fromNetworks: seq<string>,
                                           start: Collected, x: IP)
    ensures x in Gather(atts, labeledNetwork, fromNetworks, start).addrs.ipv4
      <==> x in start.addrs.ipv4 || (x.IPv4? && AttachedAddress(atts, labeledNetwork, fromNetworks, x))
    ensures x in Gather(atts, labeledNetwork, fromNetworks, start).addrs.ipv6
      <==> x in start.addrs.ipv6 || (x.IPv6? && AttachedAddress(atts, labeledNetwork, fromNetworks, x))
  {
    if atts != [] {
      var init, last := atts[..|atts| - 1], atts[|atts| - 1];
      GatherAddresses(init, labeledNetwork, fromNetworks, start, x);
      AttachedAddressSnoc(atts, labeledNetwork, fromNetworks, x);
      AddCIDRsMembers(last.addresses, Gather(init, labeledNetwork, fromNetworks, start).addrs, x);
    }
  }

  /** Gathering never introduces a duplicate address. */
  lemma {:induction false} GatherNoDup(atts: seq<Attachment>, labeledNetwork: string, fromNetworks: seq<string>, start: Collected)
    ensures NoDupIPs(start.addrs.ipv4) ==> NoDupIPs(Gather(atts, labeledNetwork, fromNetworks, start).addrs.ipv4)
    ensures NoDupIPs(start.addrs.ipv6) ==> NoDupIPs(Gather(atts, labeledNetwork, fromNetworks, start).addrs.ipv6)
  {
    if atts != [] {
      var init, last := atts[..|atts| - 1], atts[|atts| - 1];
      GatherNoDup(init, labeledNetwork, fromNetworks, start);
      AddCIDRsNoDup(last.addresses, Gather(init, labeledNetwork, fromNetworks, start).addrs);
    }
  }

  /** An attachment belongs to the listing exactly when it belongs to one of the tasks. */
  lemma {:induction false} TaskAttachmentsMembers(ts: seq<Task>, a: Attachment)
    ensures a in TaskAttachments(ts) <==> exists i :: 0 <= i < |ts| && a in ts[i].attachments
  {
    if ts != [] {
      var init := ts[..|ts| - 1];
      TaskAttachmentsMembers(init, a);
      if exists i :: 0 <= i < |init| && a in init[i].attachments {
        var i :| 0 <= i < |init| && a in init[i].attachments;
        assert ts[i] == init[i];
      }
      if exists i :: 0 <= i < |ts| && a in ts[i].attachments {
        var i :| 0 <= i < |ts| && a in ts[i].attachments;
        if i < |init| {
          assert init[i] == ts[i];
        }
      }
    }
  }

  /** What parseService promises whatever the task listing gives: the id and
      the stack namespace are copied; name and service become the service's
      name without its first len(namespace)+1 characters when it is longer
      than that, and otherwise the name stays empty and the service is the
      labelled one. A failed listing leaves only the virtual IPs; a
      successful one never produces duplicate addresses or unpublishable
      hosts. */
  lemma ParseServiceOutcome(opts: Options, rzones: seq<string>, origins: seq<string>,
                            s: Service, extracted: LabelFields, tasks: Result<seq<Task>, Error>)
    ensures var p := ParseServiceSpec(opts, rzones, origins, s, extracted, tasks);
      var project := Label(s.labels, StackNamespaceLabel);
      var vips := AddCIDRs(s.virtualIPs, Addrs([], []));
      && p.data.id == s.id && p.data.project == project
      && p.data.labeledHost == extracted.labeledHost && p.data.enabled == extracted.enabled
      && (|s.name| > |project| + 1 ==>
            && |project| + 1 + |p.data.name| == |s.name|
            && p.data.name == s.name[|project| + 1..] && p.data.service == p.data.name)
      && (|s.name| <= |project| + 1 ==> p.data.name == "" && p.data.service == extracted.service)
      && (tasks.Failure? ==>
            && p.err == Some(tasks.error)
            && p.data.networks == [] && p.data.ipv4 == vips.ipv4 && p.data.ipv6 == vips.ipv6 && p.data.hosts == [])
      && (tasks.Success? ==>
            && p.err == None
            && NoDupIPs(p.data.ipv4) && NoDupIPs(p.data.ipv6)
            && NoDup(p.data.hosts) && forall h :: h in p.data.hosts ==> IsHostName(origins, h))
  {
    var vips := AddCIDRs(s.virtualIPs, Addrs([], []));
    var d := ServiceBase(s, extracted, vips);
    AddCIDRsNoDup(s.virtualIPs, Addrs([], []));
    if tasks.Success? {
      var col := Gather(TaskAttachments(tasks.value), d.labeledNetwork, opts.fromNetworks, Collected(d.networks, Addrs(d.ipv4, d.ipv6)));
      GatherNoDup(TaskAttachments(tasks.value), d.labeledNetwork, opts.fromNetworks, Collected(d.networks, Addrs(d.ipv4, d.ipv6)));
      ResolvedHostsValid(d.(networks := col.networks, ipv4 := col.addrs.ipv4, ipv6 := col.addrs.ipv6), opts, rzones, origins);
    }
  }

  /** After a successful listing, the service's networks are exactly the
      permitted networks its tasks are attached to, and its addresses are
      exactly its virtual IPs and the addresses its tasks hold on permitted
      networks, each in the list of its family. */
  lemma ParseServiceMembers(opts: Options, rzones: seq<string>, origins: seq<string>,
                            s: Service, extracted: LabelFields, ts: seq<Task>, n: string, x: IP)
    ensures var p := ParseServiceSpec(opts, rzones, origins, s, extracted, Success(ts));
      var atts := TaskAttachments(ts);
      && (n in p.data.networks <==> AttachedNetwork(atts, extracted.labeledNetwork, opts.fromNetworks, n))
      && (x in p.data.ipv4 <==>
            x.IPv4? && (FromCIDRs(s.virtualIPs, x) || AttachedAddress(atts, extracted.labeledNetwork, opts.fromNetworks, x)))
      && (x in p.data.ipv6 <==>
            x.IPv6? && (FromCIDRs(s.virtualIPs, x) || AttachedAddress(atts, extracted.labeledNetwork, opts.fromNetworks, x)))
  {
    var vips := AddCIDRs(s.virtualIPs, Addrs([], []));
    var d := ServiceBase(s, extracted, vips);
    var atts := TaskAttachments(ts);
    var start := Collected(d.networks, Addrs(d.ipv4, d.ipv6));
    var col := Gather(atts, d.labeledNetwork, opts.fromNetworks, start);
    AddCIDRsMembers(s.virtualIPs, Addrs([], []), x);
    GatherNetworks(atts, d.labeledNetwork, opts.fromNetworks, start, n);
    GatherAddresses(atts, d.labeledNetwork, opts.fromNetworks, start, x);
  }

  /** A service outside any stack has no namespace label, yet its name still
      loses one character: "web" is published as "eb". */
  lemma NamelessServiceLosesFirstCharacter(opts: Options, rzones: seq<string>, origins: seq<string>,
                                           extracted: LabelFields, tasks: Result<seq<Task>, Error>)
    ensures ParseServiceSpec(opts, rzones, origins, Service("s1", "web", map[], []), extracted, tasks).data.name == "eb"
  {
    ParseServiceOutcome(opts, rzones, origins, Service("s1", "web", map[], []), extracted, tasks);
  }
}
