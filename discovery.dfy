/** The reconciliation handlers of the plugin (dockerdiscovery.go and
    pswarm.go): each takes what the Docker daemon reports about one
    container or service and decides whether its record is inserted into
    the registry, skipped or removed. The daemon's answers are inputs: the
    containers it would return to an inspect call (`docker`) with a bound
    on how many network namespaces are followed (`fuel`), and, for a
    service, its label fields and its task listing. */
module Discovery {
  import opened Wrappers
  import opened IpAddr
  import opened DnsName
  import opened Records
  import opened Resolvers
  import opened Addresses
  import opened Data
  import opened Swarm
  import opened Registry
  import opened Query
  import opened Config

  /** The registry and the error an update handler leaves behind. */
  datatype Outcome = Outcome(state: State, err: Option<Error>)

  /** updateContainer and updateService after parsing: a parse error
      removes any record filed under the parsed id and is returned; a
      record that is neither enabled by default, nor enabled by label, nor
      given a host by label is skipped; every other record is added. */
  function Reconciled(s: State, p: Parsed, enabledByDefault: bool, autoReverse: bool): Outcome {
    if p.err.Some? then
      Outcome(if p.data.id in s.ids then Removed(s, p.data.id) else s, p.err)
    else if !enabledByDefault && !p.data.enabled && p.data.labeledHost == "" then
      Outcome(s, None)
    else
      Outcome(Added(s, p.data, autoReverse), None)
  }

  /** The error of a handler is the parse error; without one the record is
      in the registry exactly when it is exposed, and with one no record
      is left under its id. */
  lemma ReconciledSpec(s: State, p: Parsed, enabledByDefault: bool, autoReverse: bool)
    requires Valid(s)
    ensures Reconciled(s, p, enabledByDefault, autoReverse).err == p.err
    ensures Valid(Reconciled(s, p, enabledByDefault, autoReverse).state)
    ensures p.err.Some? ==> p.data.id !in Reconciled(s, p, enabledByDefault, autoReverse).state.ids
    ensures p.err.Some? && p.data.id !in s.ids ==> Reconciled(s, p, enabledByDefault, autoReverse).state == s
    ensures p.err.None? && !(enabledByDefault || p.data.enabled || p.data.labeledHost != "") ==>
      Reconciled(s, p, enabledByDefault, autoReverse).state == s
    ensures p.err.None? && (enabledByDefault || p.data.enabled || p.data.labeledHost != "") ==>
      p.data.id in Reconciled(s, p, enabledByDefault, autoReverse).state.ids &&
      Reconciled(s, p, enabledByDefault, autoReverse).state.ids[p.data.id] == p.data
  {
  }

  /** updateContainerNetworks after address extraction: an id with no
      record changes nothing; an extraction error is returned and changes
      nothing; otherwise the stored record keeps its host names, takes the
      new address lists and is added again, and no error is returned even
      when there is no IPv4 address. */
  function NetworksUpdated(s: State, id: string, addrs: Result<Addrs, Error>, autoReverse: bool): Outcome {
    if id !in s.ids then Outcome(s, None)
    else match addrs
      case Failure(e) => Outcome(s, Some(e))
      case Success(a) => Outcome(Added(s, s.ids[id].(ipv4 := a.ipv4, ipv6 := a.ipv6), autoReverse), None)
  }

  /** The forward indexes after a network update: the record's host names
      point at the new addresses of each family that has some, and keep
      their old entry for a family that now has none. So a container that
      lost its last IPv4 address still answers A queries with the old one. */
  lemma NetworksUpdatedForward(s: State, id: string, a: Addrs, autoReverse: bool, h: string)
    requires id in s.ids && h in s.ids[id].hosts
    ensures NetworksUpdated(s, id, Success(a), autoReverse).err == None
    ensures NetworksUpdated(s, id, Success(a), autoReverse).state.ids[id].hosts == s.ids[id].hosts
    ensures a.ipv4 != [] ==>
      h in NetworksUpdated(s, id, Success(a), autoReverse).state.name4 &&
      NetworksUpdated(s, id, Success(a), autoReverse).state.name4[h] == a.ipv4
    ensures a.ipv6 != [] ==>
      h in NetworksUpdated(s, id, Success(a), autoReverse).state.name6 &&
      NetworksUpdated(s, id, Success(a), autoReverse).state.name6[h] == a.ipv6
    ensures a.ipv4 == [] ==> NetworksUpdated(s, id, Success(a), autoReverse).state.name4 == s.name4
    ensures a.ipv6 == [] ==> NetworksUpdated(s, id, Success(a), autoReverse).state.name6 == s.name6
  {
    AddedForward(s, s.ids[id].(ipv4 := a.ipv4, ipv6 := a.ipv6), autoReverse, h);
  }

  /** One service as the daemon reports it. */
  datatype ServiceInput = ServiceInput(service: Service, labels: LabelFields, tasks: Result<seq<Task>, Error>)

  /** One service reconciled: parsed, then added, skipped or removed. */
  function ServiceStep(s: State, it: ServiceInput, opts: Options, rzones: seq<string>, origins: seq<string>,
                       autoReverse: bool): Outcome {
    Reconciled(s, ParseServiceSpec(opts, rzones, origins, it.service, it.labels, it.tasks),
               opts.enabledByDefault, autoReverse)
  }

  /** scanServices from the i-th service on: each service is reconciled in
      turn and the first error ends the scan. */
  function Scan(s: State, items: seq<ServiceInput>, opts: Options, rzones: seq<string>, origins: seq<string>,
                autoReverse: bool): Outcome
    decreases |items|
  {
    if items == [] then Outcome(s, None)
    else
      var o := ServiceStep(s, items[0], opts, rzones, origins, autoReverse);
      if o.err.Some? then o else Scan(o.state, items[1..], opts, rzones, origins, autoReverse)
  }

  /** The parse error of one service, if any. */
  function ServiceError(it: ServiceInput, opts: Options, rzones: seq<string>, origins: seq<string>): Option<Error> {
    ParseServiceSpec(opts, rzones, origins, it.service, it.labels, it.tasks).err
  }

  /** A reconciled service reports its parse error. */
  lemma ServiceStepError(s: State, it: ServiceInput, opts: Options, rzones: seq<string>, origins: seq<string>,
                         autoReverse: bool)
    ensures ServiceStep(s, it, opts, rzones, origins, autoReverse).err == ServiceError(it, opts, rzones, origins)
  {
  }

  /** The scan ends with the error of the first service that fails to parse
      and ignores every service after it; without such a service it reports
      no error. */
  lemma {:induction false} ScanStopsAtFirstError(s: State, items: seq<ServiceInput>, opts: Options, rzones: seq<string>,
                                                 origins: seq<string>, autoReverse: bool, k: nat)
    requires k <= |items|
    requires forall j :: 0 <= j < k ==> ServiceError(items[j], opts, rzones, origins).None?
    requires k < |items| ==> ServiceError(items[k], opts, rzones, origins).Some?
    ensures Scan(s, items, opts, rzones, origins, autoReverse) == Scan(s, items[..k + (if k < |items| then 1 else 0)], opts, rzones, origins, autoReverse)
    ensures Scan(s, items, opts, rzones, origins, autoReverse).err ==
      if k < |items| then ServiceError(items[k], opts, rzones, origins) else None
    decreases k
  {
    var n := k + (if k < |items| then 1 else 0);
    if items != [] {
      var it := items[0];
      ServiceStepError(s, it, opts, rzones, origins, autoReverse);
      var o := ServiceStep(s, it, opts, rzones, origins, autoReverse);
      assert items[..n][0] == it;
      if k > 0 {
        assert items[..n][1..] == items[1..][..n - 1];
        ScanStopsAtFirstError(o.state, items[1..], opts, rzones, origins, autoReverse, k - 1);
      }
    }
  }

  lemma AppendAssoc<T>(a: seq<T>, b: seq<T>, x: T)
    ensures (a + b) + [x] == a + (b + [x])
  {
  }

  /** The plugin with its registry and the options the handlers read. */
  class DockerDiscovery {
    const hmap: Map
    var opts: Options
    var origins: seq<string>
    var rzones: seq<string>
    var endpoint: string
    var ttl: nat
    var fall: seq<string>

    /** The plugin as ParseStanza leaves it: the parsed settings, an empty
        registry and the zone suffixes of the origins. */
    constructor(st: Settings)
      ensures hmap.Snapshot() == Empty && hmap.autoReverse == st.opts.autoReverse && fresh(hmap)
      ensures opts == st.opts && origins == st.origins && endpoint == st.endpoint && ttl == st.ttl && fall == st.fall
      ensures rzones == RZones(st.origins)
    {
      hmap := new Map(st.opts.autoReverse);
      opts, origins, endpoint, ttl, fall := st.opts, st.origins, st.endpoint, st.ttl, st.fall;
      rzones := [];
      new;
      AddRZones();
    }

    /** addRZones */
    method AddRZones()
      modifies this
      ensures rzones == old(rzones) + RZones(origins)
      ensures opts == old(opts) && origins == old(origins) && endpoint == old(endpoint)
      ensures ttl == old(ttl) && fall == old(fall)
    {
      for i := 0 to |origins|
        invariant opts == old(opts) && origins == old(origins) && endpoint == old(endpoint)
        invariant ttl == old(ttl) && fall == old(fall)
        invariant rzones == old(rzones) + RZones(origins[..i])
      {
        assert origins[..i + 1][..i] == origins[..i];
        var dot := ".";
        if origins[i] == "" || origins[i] == "." {
          dot := "";
        }
        assert dot + origins[i] == ZoneSuffix(origins[i]);
        assert RZones(origins[..i + 1]) == RZones(origins[..i]) + [ZoneSuffix(origins[i])];
        AppendAssoc(old(rzones), RZones(origins[..i]), dot + origins[i]);
        rzones := rzones + [dot + origins[i]];
      }
      assert origins[..|origins|] == origins;
    }

    /** updateContainer */
    method UpdateContainer(docker: map<string, Container>, container: Container, fuel: nat) returns (err: Option<Error>)
      modifies hmap
      ensures Outcome(hmap.Snapshot(), err) ==
        Reconciled(old(hmap.Snapshot()), ParseContainerSpec(docker, opts, rzones, origins, container, fuel),
                   opts.enabledByDefault, hmap.autoReverse)
      ensures hmap.autoReverse == old(hmap.autoReverse)
    {
      var d, e := ParseContainer(docker, opts, rzones, origins, container, fuel);
      err := Reconcile(d, e);
    }

    /** updateService */
    method UpdateService(service: Service, labels: LabelFields, tasks: Result<seq<Task>, Error>) returns (err: Option<Error>)
      modifies hmap
      ensures Outcome(hmap.Snapshot(), err) ==
        Reconciled(old(hmap.Snapshot()), ParseServiceSpec(opts, rzones, origins, service, labels, tasks),
                   opts.enabledByDefault, hmap.autoReverse)
      ensures hmap.autoReverse == old(hmap.autoReverse)
    {
      var d, e := ParseService(opts, rzones, origins, service, labels, tasks);
      err := Reconcile(d, e);
    }

    /** The decision updateContainer and updateService share once the
        record is parsed. */
    method Reconcile(d: ContainerData, e: Option<Error>) returns (err: Option<Error>)
      modifies hmap
      ensures Outcome(hmap.Snapshot(), err) == Reconciled(old(hmap.Snapshot()), Parsed(d, e), opts.enabledByDefault, hmap.autoReverse)
      ensures hmap.autoReverse == old(hmap.autoReverse)
    {
      if e.Some? {
        if d.id in hmap.ids {
          hmap.RemoveContainer(d.id);
        }
        return e;
      }
      if !opts.enabledByDefault && !d.enabled && d.labeledHost == "" {
        return None;
      }
      hmap.AddContainer(d);
      return None;
    }

    /** removeContainer and removeService: an unknown id is not an error. */
    method RemoveContainer(id: string) returns (err: Option<Error>)
      modifies hmap
      ensures hmap.Snapshot() == Removed(old(hmap.Snapshot()), id) && err == None
      ensures hmap.autoReverse == old(hmap.autoReverse)
    {
      if id !in hmap.ids {
        return None;
      }
      hmap.RemoveContainer(id);
      return None;
    }

    /** updateContainerNetworks */
    method UpdateContainerNetworks(docker: map<string, Container>, container: Container, fuel: nat) returns (err: Option<Error>)
      modifies hmap
      ensures Outcome(hmap.Snapshot(), err) ==
        NetworksUpdated(old(hmap.Snapshot()), container.id, ContainerAddresses(docker, opts.fromNetworks, container, fuel), hmap.autoReverse)
      ensures hmap.autoReverse == old(hmap.autoReverse)
    {
      if container.id !in hmap.ids {
        return None;
      }
      var c := hmap.ids[container.id];
      var addrs := GetContainerAddresses(docker, opts.fromNetworks, container, fuel);
      if addrs.Failure? {
        return Some(addrs.error);
      }
      c := c.(ipv4 := addrs.value.ipv4, ipv6 := addrs.value.ipv6);
      hmap.AddContainer(c);
      return None;
    }

    /** scanServices, given the daemon's service listing. */
    method ScanServices(listed: Result<seq<ServiceInput>, Error>) returns (err: Option<Error>)
      modifies hmap
      ensures listed.Failure? ==> hmap.Snapshot() == old(hmap.Snapshot()) && err == Some(listed.error)
      ensures listed.Success? ==>
        (Outcome(hmap.Snapshot(), err) == Scan(old(hmap.Snapshot()), listed.value, opts, rzones, origins, hmap.autoReverse))
      ensures hmap.autoReverse == old(hmap.autoReverse)
    {
      if listed.Failure? {
        return Some(listed.error);
      }
      var items := listed.value;
      for i := 0 to |items|
        invariant hmap.autoReverse == old(hmap.autoReverse)
        invariant Scan(old(hmap.Snapshot()), items, opts, rzones, origins, hmap.autoReverse) ==
          Scan(hmap.Snapshot(), items[i..], opts, rzones, origins, hmap.autoReverse)
      {
        var it := items[i];
        assert items[i..][0] == it && items[i..][1..] == items[i + 1..];
        var e := UpdateService(it.service, it.labels, it.tasks);
        if e.Some? {
          return e;
        }
      }
      return None;
    }
  }

  /** End to end: a container that parses and is exposed answers an A query
      for each of its host names with its IPv4 addresses, under the handler
      as written and the corrected one alike, and once it is removed those
      queries fail. */
  lemma ExposedContainerAnswers(docker: map<string, Container>, opts: Options, rzones: seq<string>, origins: seq<string>,
                                c: Container, fuel: nat, ttl: nat, s: State, h: string)
    requires Valid(s)
    requires ParseContainerSpec(docker, opts, rzones, origins, c, fuel).err.None?
    requires var d := ParseContainerSpec(docker, opts, rzones, origins, c, fuel).data;
      opts.enabledByDefault || d.enabled || d.labeledHost != ""
    requires h in ParseContainerSpec(docker, opts, rzones, origins, c, fuel).data.hosts
    ensures var p := ParseContainerSpec(docker, opts, rzones, origins, c, fuel);
      var after := Reconciled(s, p, opts.enabledByDefault, opts.autoReverse).state;
      && Serve(origins, ttl, after, h, A) == Answer(h, ttl, p.data.ipv4)
      && ServeFolded(origins, ttl, after, h, A) == Answer(h, ttl, p.data.ipv4)
      && Serve(origins, ttl, Removed(after, c.id), h, A) == ServFail
  {
    var p := ParseContainerSpec(docker, opts, rzones, origins, c, fuel);
    ParseOutcome(docker, opts, rzones, origins, c, fuel);
    NormalizeFixed(h);
    AddedThenServed(origins, ttl, s, p.data, opts.autoReverse, h);
    var after := Added(s, p.data, opts.autoReverse);
    FoldedAgreesOnNormalNames(origins, ttl, after, h, A);
    RemovedThenFailed(origins, ttl, after, c.id, h, A);
  }
}
