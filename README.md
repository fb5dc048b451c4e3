# coredns-dockerdns in Dafny

This project models the core of the `docker` plugin for CoreDNS
(karantin2020/coredns-dockerdns). The plugin gives Docker containers and
Swarm services DNS names and proves properties about them. It watches the
Docker daemon, turns each container or service into a record, and keeps
three indexes in the registry:

- host name to IPv4 addresses;
- host name to IPv6 addresses;
- when reverse entries are kept, address to host names.

It answers A and AAAA queries under its origins from the two forward
indexes.

The modules follow the source files:

| module | file | what it holds |
|---|---|---|
| `Registry` | map.go | the registry as a class `Map` whose methods change its maps in place, proved against the pure functions `Added` and `Removed` on a `State` value |
| `Records`, `Resolvers`, `Data` | data.go, resolvers.go | the container record, label reading, the network allow-list, and name expansion into FQDNs under the origins (`makeFQDNs`, `toFQDN`, `resolveHosts`, `addFQDN`, `parseContainer`) |
| `Addresses` | dockerdiscovery.go | `getContainerAddresses` and `addressesFromNetwork`, following `container:<id>` network modes |
| `Query` | dockerdiscovery.go | the decision `ServeDNS` takes: pass on, SERVFAIL, or answer |
| `Swarm` | pswarm.go | `parseService`, `parseCIDR`, `ipsContain`, `serviceVirtualIPs` |
| `Discovery` | dockerdiscovery.go, pswarm.go | the plugin object `DockerDiscovery` and its update and remove handlers, including `scanServices` |
| `Config` | parse.go | `ParseStanza`, `validOriginArgs`, `validDockerNetworkName`, `parseIP`, `addRZones` |
| `DnsName`, `IpAddr`, `Strings`, `Wrappers` | (library) | stand-ins for the CoreDNS name helpers, `net.IP`, and the `strings` and `strconv` calls the core makes |

The Docker daemon is an input, never a call:

- An inspect call is a lookup in `docker: map<string, Container>`.
- A service's task listing is a `Result` given to `parseService`.
- A service listing is a `Result` given to `scanServices`.
- Go map iteration over a container's networks is a sequence of
  `(name, network)` pairs in the order the plugin happens to visit them.

Each loop of the source is a method proved equal to a pure function. The
properties are lemmas about those functions.

## Model

| member | source | states |
|---|---|---|
| Records.NewContainerConfig | data.go:41-50 | the record is enabled exactly when the enable label is "true"; the host, network, project and service fields are the values of their labels (empty when absent); every other field is empty |
| Records.AnyPermits | data.go:125-130 | the search over a non-empty allow-list succeeds exactly when the network is listed or the container's non-empty labelled network is listed |
| Records.PermittedNetwork | data.go:121-131 | an empty allow-list permits every network; otherwise a network is permitted exactly when it, or the non-empty labelled network, is listed |
| Resolvers.TrimLeftSlashes | resolvers.go:13-15 | the result is a suffix of the name, everything removed was '/', and the result does not start with '/' |
| Resolvers.NormalizeContainerName | resolvers.go:13-15 | the container's name is some number of slashes followed by the result, which does not start with '/' |
| Resolvers.ToFQDN | resolvers.go:56-62 | success exactly when the normalised name lies under an origin; the value is that normalised name, lower-case and fully qualified |
| Resolvers.Expand | resolvers.go:36-44 | an empty join contributes nothing; a non-empty one contributes exactly when its normal form lies under an origin, and then contributes that normal form, which is lower-case, fully qualified and under an origin |
| Resolvers.MakeFQDNs | resolvers.go:17-54 | the nested loop with its seen-set returns `FQDNs`: the first occurrence of each accepted FQDN of every domain joined with every zone suffix, domain-major |
| Resolvers.DedupMembers | resolvers.go:45-49 | the seen-set keeps the same names, drops every repeat, and never lengthens the list |
| Resolvers.AcceptedHostNames | resolvers.go:36-44 | every accepted name is publishable, and there are at most as many as joins |
| Resolvers.AcceptedMembers | resolvers.go:36-44 | a name is accepted exactly when some join expands to it |
| Resolvers.AcceptedFixed | resolvers.go:56-61 | joins that are already publishable FQDNs are all accepted, unchanged and in order |
| Resolvers.JoinedLength | resolvers.go:33-36 | there are exactly len(domains)*len(rzones) joins, the capacity the source reserves |
| Resolvers.JoinedSound | resolvers.go:34-36 | every join is some domain followed by some zone suffix |
| Resolvers.JoinedComplete | resolvers.go:34-36 | every domain followed by every zone suffix is among the joins |
| Resolvers.FQDNsSpec | resolvers.go:17-54 | makeFQDNs returns no duplicates, only publishable names, and at most one name per (domain, zone) pair |
| Resolvers.FQDNsSound | resolvers.go:34-49 | every returned name is the FQDN of some domain joined with some zone suffix |
| Resolvers.FQDNsComplete | resolvers.go:34-49 | every join that toFQDN accepts is returned |
| DnsName.Normalize | resolvers.go:57 | the normal form is fully qualified and lower-case, at most one character longer, and is the lower-cased name when that was already fully qualified |
| DnsName.NormalizeFixed | resolvers.go:57 | a lower-case fully qualified name is its own normal form |
| DnsName.NormalizeIdempotent | resolvers.go:57 | normalising twice is normalising once |
| DnsName.Matches | dockerdiscovery.go:70 | the longest configured zone the name lies under; "" exactly when no non-empty zone contains it |
| DnsName.HostNormalizeExact | parse.go:173 | a server-block key becomes a lower-case fully qualified zone |
| Strings.IndexOf | parse.go:158 | the first position of the character, or -1 exactly when it is absent |
| Strings.IndexOfAt | parse.go:158 | a position holding the character with no earlier occurrence is the one found |
| Strings.LastIndexOfAt | parse.go:173 | a position holding the character with no later occurrence is the one found by the last-index search |
| IpAddr.ParseIPv4 | dockerdiscovery.go:264 | a dotted-quad literal parses to an IPv4 address |
| IpAddr.ParseIPv6 | dockerdiscovery.go:271 | a colon literal parses to an IPv6 address |
| Addresses.AddressesFromNetwork | dockerdiscovery.go:262-277 | each family's list grows by at most one: by the endpoint's address exactly when its field is non-empty and parses, and what was collected before is kept in front |
| Addresses.TopLevelAddresses | dockerdiscovery.go:199-212 | a container with the network label contributes no container-level address |
| Addresses.TopLevelAddressesSpec | dockerdiscovery.go:199-212 | otherwise its IPAddress and GlobalIPv6Address are each appended, after what was collected before, exactly when non-empty and parsable; nothing else changes |
| Addresses.LookupNetwork | dockerdiscovery.go:239 | the labelled network is found exactly when the container has a network of that name, and then it is that network |
| Addresses.FollowNetworkMode | dockerdiscovery.go:198-230 | the loop that collects container-level addresses and follows "container:<id>" modes returns `Follow`: the owner of the network stack, or the inspect or depth error |
| Addresses.CollectPermitted | dockerdiscovery.go:243-252 | the allow-list loop returns `PermittedAddresses`, and its flag is set exactly when some network is permitted |
| Addresses.GetContainerAddresses | dockerdiscovery.go:192-260 | the following step, then the label or allow-list step, return `ContainerAddresses` |
| Addresses.FollowKeepsNothing | dockerdiscovery.go:198-230 | with the network label, following network modes collects nothing |
| Addresses.LabelledNetworkOnly | dockerdiscovery.go:237-257 | with the network label, only the labelled network of the container owning the network stack counts, and its absence is an error |
| Addresses.PermittedAddressesFrom | dockerdiscovery.go:243-252 | earlier addresses are kept in front, and every address added was parsed from a permitted network |
| Addresses.PermittedAddressesComplete | dockerdiscovery.go:243-252 | every permitted network's non-empty, parsable IPAddress is among the collected IPv4 addresses, and likewise its GlobalIPv6Address among the IPv6 ones |
| Addresses.AllowListOutcome | dockerdiscovery.go:243-257 | for a given owner of the network stack, without the label: failure with the owner's "no network settings" error exactly when no network passes the allow-list; on success the container-level addresses come first, the rest come from permitted networks, and every permitted network's parsable addresses are there |
| Addresses.AllowListDecides | dockerdiscovery.go:192-257 | without the label, a failure while following network modes is passed on; otherwise extraction fails exactly when no network passes the allow-list (an address-less permitted network still counts), and on success the container-level addresses come first, the rest come from permitted networks, and every permitted network's parsable addresses are there |
| Data.WithFQDN | data.go:101-119 | addFQDN succeeds exactly when the name is non-empty and under an origin; it then appends the FQDN unless present, keeps the old hosts in front, and keeps the list free of duplicates |
| Data.AddFQDN | data.go:101-119 | the duplicate-search loop gives `WithFQDN`'s host list or its error, and changes nothing else |
| Data.Candidates | data.go:80-90 | at most three non-empty candidates; each enabled source that is present is among them, and nothing else is |
| Data.ResolvedHosts | data.go:80-99 | resolveHosts changes only the host list |
| Data.ResolveHosts | data.go:80-99 | the method returns `ResolvedHosts` |
| Data.PermittedNames | data.go:54-61 | the kept names are exactly the container's networks that pass the allow-list; all of them when the list is empty |
| Data.CollectPermitted | data.go:54-61 | the loop returns `PermittedNames` |
| Data.ParseContainer | data.go:52-78 | the method returns `ParseContainerSpec`, error path included |
| Data.ResolvedHostsValid | data.go:80-99 | hosts stay duplicate-free and publishable, and the labelled host is added whenever it lies under an origin |
| Data.ResolvedHostsSound | data.go:80-99 | every host of a fresh record is the labelled host or the FQDN of a candidate joined with a zone suffix |
| Data.ResolvedHostsComplete | data.go:80-94 | every candidate joined with a zone suffix that toFQDN accepts is a host |
| Data.ParseOutcome | data.go:52-78 | identity fields and permitted networks are always filled in; the parse succeeds exactly when extraction succeeds with an IPv4 address; a failure carries no addresses or hosts; success carries the extracted addresses and duplicate-free publishable hosts |
| Data.WhoamiHosts | data_test.go:82-86 | the test's whoami container gets "whoami.loc.", "whoami.dns-proxy.loc." and "w.loc.", when the label is "w.loc" |
| Data.BareLabelDropped | data_test.go:85 | with the label written "w", the label adds no host, because "w." is not under "loc." |
| Swarm.IpsContain | pswarm.go:117-124 | the search finds the address exactly when it is in the list |
| Swarm.WithCIDR | pswarm.go:101-115 | an unparsable address changes nothing; a parsed one joins its family's list exactly when absent, old entries stay in front, and no duplicate appears |
| Swarm.AddCIDR | pswarm.go:101-115 | parseCIDR returns `WithCIDR` |
| Swarm.AddCIDRList | pswarm.go:96-98 | the loop applies parseCIDR to each address in order |
| Swarm.ServiceVirtualIPs | pswarm.go:95-99 | the virtual IPs are added by parseCIDR in order |
| Swarm.GatherTasks | pswarm.go:78-88 | the two nested loops over tasks and attachments return `Gather` over all the tasks' attachments |
| Swarm.ServiceFields | pswarm.go:55-66 | the record before the tasks are listed is `ServiceBase`: id, label fields, stack namespace as project, the name with the "<stack>_" prefix stripped, the virtual IPs |
| Swarm.ParseService | pswarm.go:54-93 | the method returns `ParseServiceSpec`, error path included |
| Swarm.AddCIDRsMembers | pswarm.go:95-115 | a list of CIDR literals adds exactly its parsed addresses, each to its own family |
| Swarm.AddCIDRsNoDup | pswarm.go:101-124 | adding CIDR literals never introduces a duplicate |
| Swarm.GatherNetworks | pswarm.go:78-83 | the added networks are exactly the permitted networks some task is attached to |
| Swarm.GatherAddresses | pswarm.go:78-88 | the added addresses are exactly those tasks hold on permitted networks, each in its own family |
| Swarm.GatherNoDup | pswarm.go:84-86 | gathering never introduces a duplicate address |
| Swarm.TaskAttachmentsMembers | pswarm.go:78-79 | an attachment is visited exactly when it belongs to one of the tasks |
| Swarm.ParseServiceOutcome | pswarm.go:54-93 | id and stack namespace are copied; a name longer than the namespace plus one loses that prefix and becomes the service, otherwise the name stays empty; a failed task listing leaves only the virtual IPs; a successful one gives duplicate-free addresses and publishable hosts |
| Swarm.ParseServiceMembers | pswarm.go:66-88 | networks are exactly the permitted attached networks; addresses are exactly the virtual IPs and the attached addresses on permitted networks, by family |
| Swarm.NamelessServiceLosesFirstCharacter | pswarm.go:61-65 | a service "web" with no namespace label is named "eb" |
| Registry.Added | map.go:29-42 | addContainer keeps every record under its own id and files this one under its id |
| Registry.Removed | map.go:60-71 | removeContainer keeps every record under its own id, and the id is gone afterwards |
| Registry.Map.constructor | dockerdiscovery.go:51-58 | the registry starts with four empty maps |
| Registry.Map.AddContainer | map.go:29-42 | the new maps are `Added` of the old |
| Registry.Map.AddAddrs | map.go:44-58 | the reverse index gets the IPv4 round, then the IPv6 round, of `AppendNames`; nothing else changes |
| Registry.Map.AddNames | map.go:45-55 | the closure's loop gives `AppendNames`; nothing else changes |
| Registry.Map.RemoveContainer | map.go:60-71 | the new maps are `Removed` of the old |
| Registry.Map.RmAddrs | map.go:73-81 | the reverse index loses the IPv4 then the IPv6 addresses; nothing else changes |
| Registry.Map.DeleteAddrs | map.go:74-78 | the closure's loop deletes each address; nothing else changes |
| Registry.StoreAllSpec | map.go:31-37 | a stored key maps to the stored value; every other key keeps its entry or its absence |
| Registry.DeleteAllSpec | map.go:66-69 | exactly the listed keys are removed, and the rest keep their values |
| Registry.AppendNamesSpec | map.go:45-55 | an address is present afterwards exactly when it was before or is listed; its names (`Filed`, none when absent) are its old names followed by the host names once per time it is listed |
| Registry.AppendNamesTwice | map.go:56-57 | after two rounds an address is present exactly when it was before or is in either list, and it carries its old names followed by the host names as many times as both lists name it |
| Registry.AddedForward | map.go:29-38 | every host of the record points at each non-empty address list; an empty family's index and every other host are unchanged (a host the record no longer has keeps its stale entry) |
| Registry.AddedReverse | map.go:39-57 | the reverse index changes only when reverse entries are kept; then an address is present exactly when it was or the record lists it, and its names are the old ones followed by the hosts once per listing |
| Registry.AddedForwardIdempotent | map.go:29-38 | adding the same record twice leaves the same forward indexes as adding it once |
| Registry.ReAddedReverseGrows | map.go:44-58 | adding the same record again makes the reverse entry of each of its addresses longer |
| Registry.RemovedSpec | map.go:60-81 | an unknown id changes nothing; a known one loses its record, its hosts from both forward indexes and its addresses from the reverse index, and every other entry is unchanged |
| Registry.AddRemoveRoundTrip | map.go:29-81 | adding a record with a new id, new hosts and new addresses, then removing it, restores the registry |
| Query.Lookup | dockerdiscovery.go:81-96 | an answer exactly when the index has a non-empty list under the key, and then it is that list, otherwise SERVFAIL |
| Query.ServeSpec | dockerdiscovery.go:66-96 | a query outside the origins is passed on unless it is PTR; A is answered only from the IPv4 index and AAAA only from the IPv6 index, searched with the raw question name and owned by the normalised name with the configured TTL; PTR and everything else is SERVFAIL |
| Query.FoldedAnswersAnyCase | dockerdiscovery.go:68-85 | with the corrected lookup, any spelling of a stored host gets that host's addresses |
| Query.FoldedAgreesOnNormalNames | dockerdiscovery.go:68-91 | for a lower-case fully qualified name, the corrected and the original handler agree |
| Query.MixedCaseQueryFails | dockerdiscovery.go:68-96 | "WHOAMI.loc." lies in zone "loc." but gets SERVFAIL while "whoami.loc." is stored; the corrected handler answers it |
| Query.AddedThenServed | dockerdiscovery.go:79-91 | after a record is added, an A (AAAA) query for one of its hosts under an origin is answered with exactly its IPv4 (IPv6) addresses when there are some |
| Query.RemovedThenFailed | dockerdiscovery.go:79-96 | after the record is removed, every query for one of its hosts under an origin gets SERVFAIL |
| Discovery.ReconciledSpec | dockerdiscovery.go:279-299 | the handler returns the parse error; with an error no record is left under the id; without one, the record is stored exactly when it is exposed, and otherwise the registry is unchanged |
| Discovery.NetworksUpdatedForward | dockerdiscovery.go:312-331 | a network update keeps the hosts, returns no error even without IPv4, points the hosts at each family's new non-empty list, and leaves an emptied family's old entries in place |
| Discovery.ServiceStepError | pswarm.go:126-134 | updating a service reports exactly its parse error |
| Discovery.ScanStopsAtFirstError | pswarm.go:15-28 | the scan returns the error of the first service that fails, and ignores every later one; with no failure it returns no error |
| Discovery.DockerDiscovery.constructor | parse.go:132-145 | the plugin starts with the parsed settings, an empty registry, and one zone suffix per origin |
| Discovery.DockerDiscovery.AddRZones | parse.go:137-145 | one suffix per origin is appended: "." and the origin, or the origin itself for "" and "." |
| Discovery.DockerDiscovery.UpdateContainer | dockerdiscovery.go:279-299 | the registry and the error are `Reconciled` of the parsed container |
| Discovery.DockerDiscovery.UpdateService | pswarm.go:126-144 | the registry and the error are `Reconciled` of the parsed service |
| Discovery.DockerDiscovery.Reconcile | pswarm.go:127-143 | the decision both update handlers share: remove on error, skip when not exposed, add otherwise |
| Discovery.DockerDiscovery.RemoveContainer | dockerdiscovery.go:301-310 | the registry becomes `Removed` of the old one, and no error is returned even for an unknown id; removeService (pswarm.go:146-153) behaves the same way |
| Discovery.DockerDiscovery.UpdateContainerNetworks | dockerdiscovery.go:312-331 | an unknown id changes nothing; an extraction error is returned and changes nothing; otherwise the stored record takes the new addresses and is added again |
| Discovery.DockerDiscovery.ScanServices | pswarm.go:15-28 | a failed listing is returned unchanged; otherwise the services are updated in order until the first error (`Scan`) |
| Discovery.ExposedContainerAnswers | dockerdiscovery.go:279-299 | a parsed, exposed container answers A for each of its hosts with its IPv4 addresses under both handlers, and gets SERVFAIL once removed |
| Config.ParseIPZoneDropsZone | parse.go:157-164 | a "%zone" suffix never changes what an address parses to |
| Config.ValidNetworks | parse.go:100-108 | the filter never lengthens the list |
| Config.ValidNetworksSpec | parse.go:100-108 | the filter keeps exactly the names matching ^[a-zA-Z0-9][a-zA-Z0-9_.-]+$, and keeps all of them when all match |
| Config.FilterNetworks | parse.go:100-108 | the argument loop returns `ValidNetworks` |
| Config.TtlAccepted | parse.go:86-98 | `ttl` is accepted exactly when its first argument is a whole number from 0 to 3600, which then becomes the TTL and nothing else changes |
| Config.DirectiveErrors | parse.go:61-119 | a flag is refused exactly when it has an argument; an unknown name is refused; `from_networks` is refused exactly when no argument is a valid name, and otherwise keeps the valid ones |
| Config.ApplyDirective | parse.go:51-120 | one directive as the loop runs it equals `Apply` |
| Config.BlockZones | parse.go:170-174 | one zone per server-block key |
| Config.OriginsUnder | parse.go:176-183 | at most one origin per argument |
| Config.OriginsUnderSpec | parse.go:176-183 | an origin is kept exactly when it is the normal form of an argument lying under a block zone |
| Config.NormalizeBlockKeys | parse.go:170-174 | the loop over the copied block keys returns `BlockZones`: each key replaced by its NormalizeExact zone |
| Config.FilterOrigins | parse.go:176-183 | the loop returns `OriginsUnder`: the normalised arguments some block zone matches, in argument order |
| Config.ValidOriginArgs | parse.go:166-189 | the two loops, then the empty check, return `ValidOrigins` |
| Config.ValidOriginsSpec | parse.go:166-189 | no arguments is no error; otherwise it fails exactly when no argument lies under a block zone, and keeps exactly those that do |
| Config.FirstForward | parse.go:36-43 | the index of the first non-reverse zone, every zone before it being reverse; -1 exactly when all zones are reverse |
| Config.PrimaryZoneIndex | parse.go:36-43 | the loop finds `FirstForward` |
| Config.ForwardPrefix | parse.go:37-43 | a non-reverse zone after only reverse zones is the first forward zone |
| Config.ApplyDirectives | parse.go:49-121 | the directive loop returns `Directives`, stopping at the first refused directive |
| Config.ParseStanza | parse.go:22-135 | the method returns `Stanza` |
| Config.StanzaAccepted | parse.go:22-135 | an accepted configuration has a forward zone among its origins, a TTL of at most 3600, and only known directive names |
| Config.DirectivesKeep | parse.go:49-121 | successful directives keep the origins and a TTL in range |
| Config.DirectivesKnown | parse.go:118-119 | in a successful block every directive name is known |
| Config.RZones | parse.go:137-145 | one suffix per origin |
| Config.RZonesAt | parse.go:138-144 | the i-th suffix belongs to the i-th origin and ends with it |
| Config.OriginArgsValid | parse_test.go:79-102 | the three valid cases of the test give "dock.", "dock." and "rock s.rock." |
| Config.OriginArgsInvalid | parse_test.go:103-118 | the two invalid cases of the test are refused |

## Left out

- Docker client and events: creating the client (parse.go:122-127), `listServices`, `scanContainers` and the event loop `start` are left out. They are I/O against the daemon. Their inputs appear as parameters: the `docker` snapshot, the task listing, and the service listing.
- Concurrency: the sharded concurrent maps, the goroutine per event, and races between handlers are left out. The registry is modelled as one sequential object.
- DNS messages: building, compressing, sizing and writing the reply, and `NextOrFailure`, are left out. `Query.Reply` records only the decision, the owner name, the TTL and the addresses.
- Logging is left out.
- `extractLabels`: its code is not part of this model. `Swarm.LabelFields` is its outcome, given as an input.
- `net.ParseIP` and `net.ParseCIDR` are approximated by `IpAddr`. IPv4 is the exact dotted-quad grammar. IPv6 gets a syntactic check only, with no canonical form, so two spellings of one IPv6 address are different values. IPv4-mapped IPv6 literals are treated as IPv6.
- `plugin.Host.NormalizeExact`: only the first result is modelled (`DnsName.HostNormalizeExact`). Reverse-zone expansion of CIDR keys is not modelled.
- `Fall.SetZonesFromArgs` is approximated by `Config.FallZones`.
- `strconv.Atoi`: the 64-bit range limit is not modelled. Out-of-range TTLs are refused by the range check anyway.
- `Addresses.ContainerAddresses`: chains of `container:<id>` network modes are bounded by a `fuel` parameter. When the bound runs out, the result is the error `NamespaceTooDeep`. The source follows any chain, and a cycle of network modes never ends there.
- The record pointer shared between the registry and `updateContainerNetworks` is modelled by value. The model stores an updated copy, which gives the same registry contents.
- `Records.Options` holds `enabledByDefault`, as parse.go:85 and pswarm.go:135 use it. updateContainer (dockerdiscovery.go:290) reads a field `exposedByDefault` that nothing sets, so the model uses `enabledByDefault` for both handlers. `autoReverse` is not declared in `dnsControlOpts`. The model keeps it in `Options` and lets it start true, which parse.go:113-117 implies.
- The check `len(dd.Origins) == 0` (parse.go:128-131) is kept in `Config.Stanza` but cannot fire, because a forward zone was already required.
- IpAddr.ParseIPv4: its contract states only the address family, not the full dotted-quad grammar its body follows.
- IpAddr.ParseIPv6: its contract states only the address family; the syntactic check is in its body.
- DnsName.Lower: lowers ASCII letters only. `plugin.Name.Normalize` uses `strings.ToLower`, which also lowers non-ASCII letters, so names with such letters normalise differently here.
- DnsName.IsSubDomain: compares names as they are written. `dns.IsSubDomain` compares labels case-insensitively. Every name the model stores or looks up is normalised first, but `Query.Serve` and `Query.ServeSpec` accept any origins, and with an upper-case origin they refuse names that the source would take as being inside the zone.
- Swarm.StrippedName: cuts the service name by characters. pswarm.go:63 slices a Go string, which cuts by bytes, so the result differs when the stack namespace holds multi-byte characters.
- Container networks: `Records.Container.networks` is a sequence of (name, endpoint) pairs visited in one fixed order. A Go map has unique keys and a random iteration order. The model does not require the names to be unique, and `Addresses.LookupNetwork` returns the first pair with the name. The allow-list loops visit the pairs in sequence order, which is one of the orders the source may take. Labels are maps, as in the source.

## Notes on the behaviour modelled

- A PTR query gets SERVFAIL: `ServeDNS` builds answers only for A and AAAA, and no reverse answer is produced from the reverse index.
- A host name that a container loses on a later update keeps its old forward entry (`Registry.AddedForward`). After a network disconnect that leaves no IPv4 address, the old A entry stays, and no error is returned (`Discovery.NetworksUpdatedForward`).
- The reverse index appends the host names again on every re-add (`Registry.ReAddedReverseGrows`).
- `getContainerAddresses` uses `net.ParseIP` directly, so an address with a "%zone" suffix is refused there. Only `parseIP` (parse.go:157-164) strips the zone.
- `scanServices` stops at the first service that fails (`Discovery.ScanStopsAtFirstError`); it does not skip it.
- `parseService` strips `len(namespace)+1` characters from the service name even when there is no namespace (`Swarm.NamelessServiceLosesFirstCharacter`).
- `container.ID[:12]` panics in Go for an id shorter than 12 characters. The source slices ids this way in error messages (data.go:70, dockerdiscovery.go:255, dockerdiscovery.go:324) and in log calls throughout dockerdiscovery.go (for example lines 282, 285, 291, 296, 304 and 315) and pswarm.go:46. The model takes ids of any length, and these paths have no such failure in it.
- The test setup at data_test.go:16-24 uses the directive `exposed_by_default`. The parser knows only `enabled_by_default`, and its default branch (parse.go:118-119) refuses any other name. So that setup would be refused: `Config.DirectivesKnown` shows that a stanza whose directives are all accepted contains only known names.
- The whoami test case (data_test.go:82-86) expects "w.loc." from a host label. `toFQDN("w")` gives "w.", which is not under "loc.", so the model derives "w.loc." from a label written "w.loc" (`Data.WhoamiHosts`, `Data.BareLabelDropped`).

## Findings

| source | as written | input that shows it | evidently intended | confidence | as-written member | corrected member |
|---|---|---|---|---|---|---|
| dockerdiscovery.go:68-87 | the zone is matched on the lower-cased name `state.Name()`, but the index is searched with the raw `state.QName()`, while all stored host names are lower-case | an A query for "WHOAMI.loc." with "whoami.loc." stored under origin "loc." gets SERVFAIL | DNS names compare case-insensitively (RFC 4343, section 3), so the lookup should use the normalised name | medium, not executed | Query.MixedCaseQueryFails | Query.FoldedAnswersAnyCase |
