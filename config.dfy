/** The configuration of the plugin (parse.go): the origins, checked against
    the server block's zones, and the directives of the plugin's block. A
    directive is its name with the arguments on its line. Creating the
    Docker client is not modelled. */
module Config {
  import opened Wrappers
  import opened Strings
  import opened DnsName
  import opened IpAddr
  import opened Records

  const DefaultEndpoint := "unix:///var/run/docker.sock"
  const DefaultTTL := 3600
  const MaxTTL := 3600

  /** One line of the plugin's block. */
  datatype Directive = Directive(name: string, args: seq<string>)

  /** What ParseStanza sets up: the origins, the daemon endpoint, the answer
      TTL, the discovery options and the fallthrough zones. */
  datatype Settings = Settings(origins: seq<string>, endpoint: string, ttl: nat, opts: Options, fall: seq<string>)

  /** NewDockerDiscovery(""): the default endpoint and TTL, names by label
      only, and reverse entries kept until `no_reverse` turns them off. */
  const Defaults := Settings([], DefaultEndpoint, DefaultTTL, Options(false, false, true, false, false, [], true), [])

  predicate IsAlnum(c: char) { 'a' <= c <= 'z' || 'A' <= c <= 'Z' || '0' <= c <= '9' }

  predicate IsNetworkChar(c: char) { IsAlnum(c) || c == '_' || c == '.' || c == '-' }

  /** validDockerNetworkName: the pattern ^[a-zA-Z0-9][a-zA-Z0-9_.-]+$, a
      letter or digit followed by at least one more allowed character. */
  predicate ValidDockerNetworkName(name: string) {
    |name| >= 2 && IsAlnum(name[0]) && forall i :: 1 <= i < |name| ==> IsNetworkChar(name[i])
  }

  /** parseIP: everything from the first '%' (an IPv6 zone) is dropped
      before the address is parsed. */
  function ParseIPZone(addr: string): Option<IP> {
    var i := IndexOf(addr, '%');
    ParseIP(if i >= 0 then addr[..i] else addr)
  }

  /** A zone suffix never changes what the address parses to. */
  lemma ParseIPZoneDropsZone(addr: string, zone: string)
    requires '%' !in addr
    ensures ParseIPZone(addr + "%" + zone) == ParseIP(addr)
    ensures ParseIPZone(addr) == ParseIP(addr)
  {
    var s := addr + "%" + zone;
    assert s[|addr|] == '%';
    var i := IndexOf(s, '%');
    assert s[..|addr|] == addr;
    IndexOfAt(s, '%', |addr|);
  }

  /** strconv.Atoi, without its 64-bit range: an optional sign and at least
      one decimal digit. */
  function Atoi(s: string): Option<int> {
    if |s| >= 2 && (s[0] == '+' || s[0] == '-') && AllDigits(s[1..]) then
      var v: int := DecimalValue(s[1..]);
      Some(if s[0] == '-' then -v else v)
    else if |s| >= 1 && AllDigits(s) then Some(DecimalValue(s))
    else None
  }

  /** The `from_networks` filter: the valid names in order. */
  function ValidNetworks(names: seq<string>): (r: seq<string>)
    ensures |r| <= |names|
  {
    if names == [] then []
    else
      var last := names[|names| - 1];
      ValidNetworks(names[..|names| - 1]) + (if ValidDockerNetworkName(last) then [last] else [])
  }

  /** The filter keeps exactly the valid names, and all of them when every
      name is valid. */
  lemma {:induction false} ValidNetworksSpec(names: seq<string>, x: string)
    ensures x in ValidNetworks(names) <==> x in names && ValidDockerNetworkName(x)
    ensures (forall i :: 0 <= i < |names| ==> ValidDockerNetworkName(names[i])) ==> ValidNetworks(names) == names
  {
    if names != [] {
      var init := names[..|names| - 1];
      ValidNetworksSpec(init, x);
      SplitLast(names);
      if forall i :: 0 <= i < |names| ==> ValidDockerNetworkName(names[i]) {
        assert forall i :: 0 <= i < |init| ==> ValidDockerNetworkName(init[i]) by {
          forall i | 0 <= i < |init| ensures ValidDockerNetworkName(init[i]) {
            assert init[i] == names[i];
          }
        }
      }
    }
  }

  /** The loop over the arguments of `from_networks`. */
  method FilterNetworks(names: seq<string>) returns (networks: seq<string>)
    ensures networks == ValidNetworks(names)
  {
    networks := [];
    for i := 0 to |names|
      invariant networks == ValidNetworks(names[..i])
    {
      assert names[..i + 1][..i] == names[..i];
      if ValidDockerNetworkName(names[i]) {
        networks := networks + [names[i]];
      }
    }
    assert names[..|names|] == names;
  }

  /** Fall.SetZonesFromArgs: no arguments mean every zone. */
  function FallZones(args: seq<string>): seq<string> {
    if args == [] then ["."] else seq(|args|, i requires 0 <= i < |args| => HostNormalizeExact(args[i]))
  }

  predicate IsFlag(name: string) {
    name in ["by_domain", "by_hostname", "by_label", "by_compose_domain", "enabled_by_default", "no_reverse"]
  }

  /** One directive of the block: a flag takes no argument, `endpoint`
      needs one, `ttl` needs a number in [0, 3600], `from_networks` needs at
      least one valid network name, and any other name is refused. */
  function Apply(st: Settings, d: Directive): Result<Settings, Error> {
    if d.name == "fallthrough" then Success(st.(fall := FallZones(d.args)))
    else if d.name == "endpoint" then
      if d.args != [] then Success(st.(endpoint := d.args[0])) else Failure(ArgErr)
    else if IsFlag(d.name) then
      if d.args != [] then Failure(ArgErr)
      else if d.name == "by_domain" then Success(st.(opts := st.opts.(byDomain := true)))
      else if d.name == "by_hostname" then Success(st.(opts := st.opts.(byHostname := true)))
      else if d.name == "by_label" then Success(st.(opts := st.opts.(byLabel := true)))
      else if d.name == "by_compose_domain" then Success(st.(opts := st.opts.(byComposeDomain := true)))
      else if d.name == "enabled_by_default" then Success(st.(opts := st.opts.(enabledByDefault := true)))
      else Success(st.(opts := st.opts.(autoReverse := false)))
    else if d.name == "ttl" then
      if d.args == [] then Failure(ArgErr)
      else match Atoi(d.args[0])
        case None => Failure(BadNumber(d.args[0]))
        case Some(t) => if t < 0 || t > MaxTTL then Failure(TtlOutOfRange(t)) else Success(st.(ttl := t))
    else if d.name == "from_networks" then
      var networks := ValidNetworks(d.args);
      if networks == [] then Failure(ArgErr) else Success(st.(opts := st.opts.(fromNetworks := networks)))
    else Failure(UnknownDirective(d.name))
  }

  /** `ttl` is accepted exactly when its first argument is a whole number
      from 0 to 3600, and then becomes the TTL; nothing else changes. */
  lemma TtlAccepted(st: Settings, args: seq<string>)
    ensures Apply(st, Directive("ttl", args)).Success? <==>
      args != [] && Atoi(args[0]).Some? && 0 <= Atoi(args[0]).value <= 3600
    ensures Apply(st, Directive("ttl", args)).Success? ==>
      Apply(st, Directive("ttl", args)).value == st.(ttl := Atoi(args[0]).value)
  {
    assert !IsFlag("ttl");
  }

  /** A flag with an argument is refused, and so is a directive with an
      unknown name; `from_networks` keeps the valid names and is refused
      when there are none. */
  lemma DirectiveErrors(st: Settings, d: Directive)
    ensures IsFlag(d.name) ==> (Apply(st, d).Failure? <==> d.args != [])
    ensures !IsFlag(d.name) && d.name !in ["fallthrough", "endpoint", "ttl", "from_networks"] ==>
      Apply(st, d) == Failure(UnknownDirective(d.name))
    ensures d.name == "from_networks" ==>
      (Apply(st, d).Failure? <==> forall i :: 0 <= i < |d.args| ==> !ValidDockerNetworkName(d.args[i]))
    ensures d.name == "from_networks" && Apply(st, d).Success? ==>
      Apply(st, d).value.opts.fromNetworks == ValidNetworks(d.args)
  {
    if d.name == "from_networks" {
      assert !IsFlag(d.name);
      var r := ValidNetworks(d.args);
      if r == [] {
        forall i | 0 <= i < |d.args| ensures !ValidDockerNetworkName(d.args[i]) {
          ValidNetworksSpec(d.args, d.args[i]);
        }
      } else {
        ValidNetworksSpec(d.args, r[0]);
      }
    }
  }

  /** The directive as the loop of ParseStanza runs it. */
  method ApplyDirective(st: Settings, d: Directive) returns (r: Result<Settings, Error>)
    ensures r == Apply(st, d)
  {
    if d.name == "from_networks" {
      assert !IsFlag(d.name);
      var networks := FilterNetworks(d.args);
      if |networks| == 0 {
        return Failure(ArgErr);
      }
      return Success(st.(opts := st.opts.(fromNetworks := networks)));
    }
    return Apply(st, d);
  }

  /** The directives in order; the first refused one ends the parse. */
  function Directives(st: Settings, ds: seq<Directive>): Result<Settings, Error>
    decreases |ds|
  {
    if ds == [] then Success(st)
    else match Apply(st, ds[0])
      case Failure(e) => Failure(e)
      case Success(st') => Directives(st', ds[1..])
  }

  /** The server block's keys as zones. */
  function BlockZones(keys: seq<string>): (r: seq<string>)
    ensures |r| == |keys|
  {
    seq(|keys|, i requires 0 <= i < |keys| => HostNormalizeExact(keys[i]))
  }

  /** The normalised origin arguments that lie under a zone of the block. */
  function OriginsUnder(args: seq<string>, block: seq<string>): (r: seq<string>)
    ensures |r| <= |args|
  {
    if args == [] then []
    else
      var n := Normalize(args[|args| - 1]);
      OriginsUnder(args[..|args| - 1], block) + (if Matches(block, n) != "" then [n] else [])
  }

  /** An origin is kept exactly when it is the normal form of an argument
      that lies under a zone of the block; kept origins are normal. */
  lemma {:induction false} OriginsUnderSpec(args: seq<string>, block: seq<string>, x: string)
    ensures x in OriginsUnder(args, block) <==> InZones(block, x) && SomeMapsTo(args, Normalize, x)
    ensures x in OriginsUnder(args, block) ==> IsFqdn(x) && NoUpper(x)
  {
    if args != [] {
      OriginsUnderSpec(args[..|args| - 1], block, x);
      SomeMapsToSnoc(args, Normalize, x);
    }
  }

  /** validOriginArgs: no arguments is no error; otherwise the arguments
      under the block's zones, and an error when there are none. */
  function ValidOrigins(args: seq<string>, keys: seq<string>): Result<seq<string>, Error> {
    if args == [] then Success(args)
    else
      var origins := OriginsUnder(args, BlockZones(keys));
      if origins == [] then Failure(OriginsMismatch) else Success(origins)
  }

  /** The first loop of validOriginArgs: normalise every server-block key in place. */
  method NormalizeBlockKeys(keys: seq<string>) returns (block: seq<string>)
    ensures block == BlockZones(keys)
  {
    block := keys;
    for i := 0 to |block|
      invariant |block| == |keys|
      invariant forall j :: 0 <= j < i ==> block[j] == HostNormalizeExact(keys[j])
      invariant forall j :: i <= j < |block| ==> block[j] == keys[j]
    {
      block := block[i := HostNormalizeExact(block[i])];
    }
  }

  /** The second loop of validOriginArgs: keep the normalised arguments that
      some zone of the block matches. */
  method FilterOrigins(args: seq<string>, block: seq<string>) returns (origins: seq<string>)
    ensures origins == OriginsUnder(args, block)
  {
    origins := [];
    for i := 0 to |args|
      invariant origins == OriginsUnder(args[..i], block)
    {
      assert args[..i + 1][..i] == args[..i];
      var normalized := Normalize(args[i]);
      var zone := Matches(block, normalized);
      if zone != "" {
        origins := origins + [normalized];
      }
    }
    assert args[..|args|] == args;
  }

  /** validOriginArgs */
  method ValidOriginArgs(args: seq<string>, keys: seq<string>) returns (r: Result<seq<string>, Error>)
    ensures r == ValidOrigins(args, keys)
  {
    if |args| == 0 {
      return Success(args);
    }
    var block := NormalizeBlockKeys(keys);
    var origins := FilterOrigins(args, block);
    if |origins| == 0 {
      return Failure(OriginsMismatch);
    }
    return Success(origins);
  }

  /** validOriginArgs fails exactly when some arguments are given and none
      lies under a zone of the block; it then keeps exactly those that do. */
  lemma ValidOriginsSpec(args: seq<string>, keys: seq<string>, x: string)
    ensures args == [] ==> ValidOrigins(args, keys) == Success([])
    ensures ValidOrigins(args, keys).Failure? <==>
      args != [] && forall i :: 0 <= i < |args| ==> !InZones(BlockZones(keys), Normalize(args[i]))
    ensures args != [] && ValidOrigins(args, keys).Success? ==>
      (x in ValidOrigins(args, keys).value <==> InZones(BlockZones(keys), x) && SomeMapsTo(args, Normalize, x))
  {
    var block := BlockZones(keys);
    OriginsUnderSpec(args, block, x);
    if args != [] {
      var r := OriginsUnder(args, block);
      if r == [] {
        forall i | 0 <= i < |args| ensures !InZones(block, Normalize(args[i])) {
          OriginsUnderSpec(args, block, Normalize(args[i]));
          assert SomeMapsTo(args, Normalize, Normalize(args[i]));
        }
      } else {
        OriginsUnderSpec(args, block, r[0]);
      }
    }
  }

  /** plugin.OriginsFromArgsOrServerBlock: the block's zones when there are
      no origin arguments, else the arguments as zones. */
  function OriginsFrom(origins: seq<string>, keys: seq<string>): seq<string> {
    if origins == [] then BlockZones(keys) else BlockZones(origins)
  }

  /** The index of the first zone that is not a reverse zone, or -1. */
  function FirstForward(zones: seq<string>): (i: int)
    ensures -1 <= i < |zones|
    ensures i >= 0 ==> !IsReverse(zones[i]) && forall j :: 0 <= j < i ==> IsReverse(zones[j])
    ensures i == -1 <==> forall j :: 0 <= j < |zones| ==> IsReverse(zones[j])
  {
    if zones == [] then -1
    else
      var p := FirstForward(zones[..|zones| - 1]);
      if p >= 0 then p
      else if !IsReverse(zones[|zones| - 1]) then |zones| - 1
      else -1
  }

  /** ParseStanza without the Docker client: the origins are checked, at
      least one of them must be a forward zone, then the directives apply
      in order to the defaults. */
  function Stanza(args: seq<string>, keys: seq<string>, block: seq<Directive>): Result<Settings, Error> {
    match ValidOrigins(args, keys)
    case Failure(e) => Failure(e)
    case Success(origins) =>
      var zones := OriginsFrom(origins, keys);
      if FirstForward(zones) == -1 then Failure(NoForwardZone)
      else match Directives(Defaults.(origins := zones), block)
        case Failure(e) => Failure(e)
        case Success(st) => if st.origins == [] then Failure(ArgErr) else Success(st)
  }

  /** A configuration is accepted only with a forward zone among its
      origins, ends with a TTL in range, and names only directives the
      plugin knows. */
  lemma StanzaAccepted(args: seq<string>, keys: seq<string>, block: seq<Directive>, k: int)
    requires Stanza(args, keys, block).Success?
    ensures FirstForward(Stanza(args, keys, block).value.origins) >= 0
    ensures Stanza(args, keys, block).value.ttl <= MaxTTL
    ensures 0 <= k < |block| ==> IsKnown(block[k].name)
  {
    var zones := OriginsFrom(ValidOrigins(args, keys).value, keys);
    var st0 := Defaults.(origins := zones);
    DirectivesKeep(st0, block);
    if 0 <= k < |block| {
      DirectivesKnown(st0, block, k);
    }
  }

  predicate IsKnown(name: string) {
    name in ["fallthrough", "endpoint", "ttl", "from_networks"] || IsFlag(name)
  }

  /** Directives that all succeed keep the origins and a TTL in range. */
  lemma {:induction false} DirectivesKeep(st: Settings, ds: seq<Directive>)
    requires Directives(st, ds).Success?
    requires st.ttl <= MaxTTL
    ensures Directives(st, ds).value.origins == st.origins
    ensures Directives(st, ds).value.ttl <= MaxTTL
    decreases |ds|
  {
    if ds != [] {
      DirectivesKeep(Apply(st, ds[0]).value, ds[1..]);
    }
  }

  /** Directives that all succeed have known names. */
  lemma {:induction false} DirectivesKnown(st: Settings, ds: seq<Directive>, k: int)
    requires Directives(st, ds).Success?
    requires 0 <= k < |ds|
    ensures IsKnown(ds[k].name)
    decreases |ds|
  {
    if k == 0 {
    } else {
      DirectivesKnown(Apply(st, ds[0]).value, ds[1..], k - 1);
      assert ds[1..][k - 1] == ds[k];
    }
  }

  /** The search for the primary zone: the first origin that is not a
      reverse zone, or -1. */
  method PrimaryZoneIndex(zones: seq<string>) returns (primaryZoneIndex: int)
    ensures primaryZoneIndex == FirstForward(zones)
  {
    primaryZoneIndex := -1;
    var i := 0;
    while i < |zones|
      invariant 0 <= i <= |zones|
      invariant primaryZoneIndex == -1 ==> FirstForward(zones[..i]) == -1
      invariant primaryZoneIndex != -1 ==> primaryZoneIndex == FirstForward(zones)
    {
      assert zones[..i + 1][..i] == zones[..i];
      if !IsReverse(zones[i]) {
        primaryZoneIndex := i;
        ForwardPrefix(zones, i);
        break;
      }
      i := i + 1;
    }
    if primaryZoneIndex == -1 {
      assert zones[..|zones|] == zones;
    }
  }

  /** The directive loop: each directive in turn, stopping at the first
      error. */
  method ApplyDirectives(start: Settings, block: seq<Directive>) returns (r: Result<Settings, Error>)
    ensures r == Directives(start, block)
  {
    var st := start;
    var j := 0;
    while j < |block|
      invariant 0 <= j <= |block|
      invariant Directives(start, block) == Directives(st, block[j..])
    {
      assert block[j..][0] == block[j] && block[j..][1..] == block[j + 1..];
      var next := ApplyDirective(st, block[j]);
      if next.Failure? {
        return Failure(next.error);
      }
      st := next.value;
      j := j + 1;
    }
    return Success(st);
  }

  /** ParseStanza, its loops included. */
  method ParseStanza(args: seq<string>, keys: seq<string>, block: seq<Directive>) returns (r: Result<Settings, Error>)
    ensures r == Stanza(args, keys, block)
  {
    var valid := ValidOriginArgs(args, keys);
    if valid.Failure? {
      return Failure(valid.error);
    }
    var zones := OriginsFrom(valid.value, keys);
    var primaryZoneIndex := PrimaryZoneIndex(zones);
    if primaryZoneIndex == -1 {
      return Failure(NoForwardZone);
    }
    var applied := ApplyDirectives(Defaults.(origins := zones), block);
    if applied.Failure? {
      return Failure(applied.error);
    }
    if |applied.value.origins| == 0 {
      return Failure(ArgErr);
    }
    return applied;
  }

  /** The first forward zone of a list is found within any prefix that
      reaches it. */
  lemma {:induction false} ForwardPrefix(zones: seq<string>, i: int)
    requires 0 <= i < |zones|
    requires FirstForward(zones[..i]) == -1 && !IsReverse(zones[i])
    ensures FirstForward(zones) == i
  {
  }

  /** The zone suffix of one origin: a dot before it, except for the root
      written as "" or ".". */
  function ZoneSuffix(origin: string): string {
    if origin == "" || origin == "." then origin else "." + origin
  }

  /** The suffixes addRZones appends, one per origin. */
  function RZones(origins: seq<string>): (r: seq<string>)
    ensures |r| == |origins|
  {
    if origins == [] then [] else RZones(origins[..|origins| - 1]) + [ZoneSuffix(origins[|origins| - 1])]
  }

  /** The i-th suffix belongs to the i-th origin. */
  lemma {:induction false} RZonesAt(origins: seq<string>, i: int)
    requires 0 <= i < |origins|
    ensures RZones(origins)[i] == ZoneSuffix(origins[i])
    ensures origins[i] != "" && origins[i] != "." ==> HasSuffix(RZones(origins)[i], origins[i])
  {
    var init := origins[..|origins| - 1];
    if i < |init| {
      RZonesAt(init, i);
      assert init[i] == origins[i];
    }
    var z := RZones(origins)[i];
    if origins[i] != "" && origins[i] != "." {
      assert z == "." + origins[i];
      assert z[|z| - |origins[i]|..] == origins[i];
    }
  }

  /** A "dns://" transport prefix is dropped from a server-block key. */
  lemma StripTransportDns(h: string)
    ensures StripTransport("dns://" + h) == h
  {
    var k := "dns://" + h;
    assert k[..3] == "dns" && k[3] == ':';
    IndexOfAt(k, ':', 3);
    assert k[3..6] == "://" && k[6..] == h;
  }

  /** A ":port" suffix is dropped from a host. */
  lemma StripPortOf(h: string, port: string)
    requires ':' !in port
    ensures StripPort(h + ":" + port) == h
  {
    var s := h + ":" + port;
    assert s[|h|] == ':' && s[|h| + 1..] == port && s[..|h|] == h;
    LastIndexOfAt(s, ':', |h|);
  }

  /** A key "dns://host:port" normalises to its host. */
  lemma DnsKeyHost(h: string, port: string)
    requires ':' !in port
    ensures HostNormalizeExact("dns://" + h + ":" + port) == Normalize(h)
  {
    var hp := h + ":" + port;
    assert "dns://" + h + ":" + port == "dns://" + hp;
    calc {
      HostNormalizeExact("dns://" + hp);
      Normalize(StripPort(StripTransport("dns://" + hp)));
      { StripTransportDns(hp); }
      Normalize(StripPort(hp));
      { StripPortOf(h, port); }
      Normalize(h);
    }
  }

  /** A key "dns://host:port" names the zone of its host. */
  lemma DnsKeyZone(h: string, port: string)
    requires ':' !in port
    ensures BlockZones(["dns://" + h + ":" + port]) == [Normalize(h)]
  {
    var k := "dns://" + h + ":" + port;
    DnsKeyHost(h, port);
    assert BlockZones([k])[0] == HostNormalizeExact(k);
  }

  /** The server-block keys of parse_test.go as zones. */
  lemma RootBlock()
    ensures BlockZones(["dns://.:53"]) == ["."]
  {
    DnsKeyZone(".", "53");
    assert "dns://" + "." + ":" + "53" == "dns://.:53";
    NormalizeFixed(".");
  }

  lemma RockBlock()
    ensures BlockZones(["dns://rock.:53"]) == ["rock."]
  {
    DnsKeyZone("rock.", "53");
    assert "dns://" + "rock." + ":" + "53" == "dns://rock.:53";
    NormalizeFixed("rock.");
  }

  lemma BareRockBlock()
    ensures BlockZones(["rock."]) == ["rock."]
  {
    var k := "rock.";
    assert ':' !in k;
    calc {
      HostNormalizeExact(k);
      Normalize(StripPort(StripTransport(k)));
      Normalize(k);
      { NormalizeFixed(k); }
      k;
    }
    assert BlockZones([k])[0] == HostNormalizeExact(k);
  }

  /** validOriginArgs with one argument and one zone. */
  lemma SingleOrigin(arg: string, keys: seq<string>, z: string)
    requires BlockZones(keys) == [z]
    ensures ValidOrigins([arg], keys) ==
      if InZones([z], Normalize(arg)) then Success([Normalize(arg)]) else Failure(OriginsMismatch)
  {
    var block := BlockZones(keys);
    assert [arg][..0] == [];
    assert OriginsUnder([arg], block) == OriginsUnder([], block) + (if Matches(block, Normalize(arg)) != "" then [Normalize(arg)] else []);
    if InZones([z], Normalize(arg)) {
      assert OriginsUnder([arg], block) == [Normalize(arg)];
    } else {
      assert OriginsUnder([arg], block) == [];
    }
  }

  /** validOriginArgs with two arguments, neither under the one zone. */
  lemma NeitherOrigin(a: string, b: string, keys: seq<string>, z: string)
    requires BlockZones(keys) == [z]
    requires !InZones([z], Normalize(a)) && !InZones([z], Normalize(b))
    ensures ValidOrigins([a, b], keys) == Failure(OriginsMismatch)
  {
    var block := BlockZones(keys);
    assert [a, b][..1] == [a];
    assert [a][..0] == [];
    assert OriginsUnder([a], block) == OriginsUnder([], block) + (if Matches(block, Normalize(a)) != "" then [Normalize(a)] else []);
    assert OriginsUnder([a, b], block) == OriginsUnder([a], block) + (if Matches(block, Normalize(b)) != "" then [Normalize(b)] else []);
  }

  /** Every name lies under the root zone. */
  lemma UnderRoot(n: string)
    ensures InZones(["."], n)
  {
    assert IsSubDomain(".", n);
  }

  /** The valid cases of validOriginArgs in parse_test.go. */
  lemma OriginArgsValid()
    ensures ValidOrigins(["dock."], ["dns://.:53"]) == Success(["dock."])
    ensures ValidOrigins(["dock"], ["dns://.:53"]) == Success(["dock."])
    ensures ValidOrigins(["rock s.rock"], ["rock."]) == Success(["rock s.rock."])
  {
    RootBlock();
    NormalizeFixed("dock.");
    assert Fqdn("dock") == "dock.";
    UnderRoot("dock.");
    SingleOrigin("dock.", ["dns://.:53"], ".");
    SingleOrigin("dock", ["dns://.:53"], ".");
    RockSub();
  }

  lemma RockSub()
    ensures ValidOrigins(["rock s.rock"], ["rock."]) == Success(["rock s.rock."])
  {
    BareRockBlock();
    NormalizeFixed("rock s.rock.");
    assert Fqdn("rock s.rock") == "rock s.rock.";
    assert "rock s.rock."[|"rock s.rock."| - |".rock."|..] == ".rock.";
    assert IsSubDomain("rock.", "rock s.rock.");
    SingleOrigin("rock s.rock", ["rock."], "rock.");
  }

  /** Neither name lies under "rock.". */
  lemma NotUnderRock()
    ensures !InZones(["rock."], "dock.") && !InZones(["rock."], "s.dock.")
  {
    assert "dock."[0] != "rock."[0];
    assert !IsSubDomain("rock.", "dock.");
    assert "s.dock."[|"s.dock."| - |".rock."|..] == ".dock.";
    assert ".dock."[1] != ".rock."[1];
    assert !IsSubDomain("rock.", "s.dock.");
  }

  lemma DockNames()
    ensures Normalize("dock.") == "dock." && Normalize("dock") == "dock."
    ensures Normalize("s.dock.") == "s.dock." && Normalize("s.dock") == "s.dock."
  {
    NormalizeFixed("dock.");
    NormalizeFixed("s.dock.");
    assert Fqdn("dock") == "dock." && Fqdn("s.dock") == "s.dock.";
  }

  /** The invalid cases of validOriginArgs in parse_test.go. */
  lemma OriginArgsInvalid()
    ensures ValidOrigins(["dock.", "s.dock."], ["dns://rock.:53"]) == Failure(OriginsMismatch)
    ensures ValidOrigins(["dock", "s.dock"], ["dns://rock.:53"]) == Failure(OriginsMismatch)
  {
    RockBlock();
    NotUnderRock();
    DockNames();
    NeitherOrigin("dock.", "s.dock.", ["dns://rock.:53"], "rock.");
    NeitherOrigin("dock", "s.dock", ["dns://rock.:53"], "rock.");
  }
}
