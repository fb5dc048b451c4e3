/** Stand-ins for the DNS-name helpers the plugin takes from its host server:
    name normalisation (plugin.Name.Normalize), zone matching
    (plugin.Zones.Matches over dns.IsSubDomain), reverse-zone detection
    (dnsutil.IsReverse) and server-block key normalisation
    (plugin.Host.NormalizeExact). Names are compared as ASCII strings. */
module DnsName {
  import opened Strings

  predicate IsUpper(c: char) { 'A' <= c <= 'Z' }

  function LowerChar(c: char): char {
    if IsUpper(c) then (c as int + 32) as char else c
  }

  /** ASCII lower-casing. */
  function Lower(s: string): string {
    seq(|s|, i requires 0 <= i < |s| => LowerChar(s[i]))
  }

  predicate NoUpper(s: string) { forall i :: 0 <= i < |s| ==> !IsUpper(s[i]) }

  predicate IsFqdn(s: string) { |s| > 0 && s[|s| - 1] == '.' }

  /** dns.Fqdn: a dot is appended unless one is already last. */
  function Fqdn(s: string): string { if IsFqdn(s) then s else s + "." }

  /** plugin.Name.Normalize: make the name fully qualified, then lower-case it. */
  function Normalize(s: string): (r: string)
    ensures IsFqdn(r) && NoUpper(r)
    ensures |r| == |s| || |r| == |s| + 1
    ensures IsFqdn(s) ==> r == Lower(s)
  {
    Lower(Fqdn(s))
  }

  /** A name that is already lower-case and fully qualified is its own normal form. */
  lemma NormalizeFixed(s: string)
    requires IsFqdn(s) && NoUpper(s)
    ensures Normalize(s) == s
  {
    assert forall i :: 0 <= i < |s| ==> LowerChar(s[i]) == s[i];
  }

  /** Normalising twice is normalising once. */
  lemma NormalizeIdempotent(s: string)
    ensures Normalize(Normalize(s)) == Normalize(s)
  {
    NormalizeFixed(Normalize(s));
  }

  /** dns.IsSubDomain on normalised names: the child is the parent itself or
      ends with "." followed by the parent; every name lies under the root ".". */
  predicate IsSubDomain(parent: string, child: string) {
    parent == "." || child == parent || HasSuffix(child, "." + parent)
  }

  /** plugin.Zones.Matches: the longest zone that `qname` lies under, the first
      of equally long ones, and "" when there is none. An empty zone is never
      chosen, since it is never longer than the "" the search starts from. */
  function Matches(zones: seq<string>, qname: string): (z: string)
    ensures z == "" || (z in zones && IsSubDomain(z, qname))
    ensures forall i :: 0 <= i < |zones| && IsSubDomain(zones[i], qname) ==> |zones[i]| <= |z|
    ensures z == "" <==> forall i :: 0 <= i < |zones| && zones[i] != "" ==> !IsSubDomain(zones[i], qname)
  {
    if zones == [] then ""
    else
      var best := Matches(zones[..|zones| - 1], qname);
      var zo := zones[|zones| - 1];
      if IsSubDomain(zo, qname) && |zo| > |best| then zo else best
  }

  /** A name lies under some configured zone. */
  predicate InZones(zones: seq<string>, name: string) { Matches(zones, name) != "" }

  /** dnsutil.IsReverse > 0: the zone is under in-addr.arpa. or ip6.arpa. */
  predicate IsReverse(zone: string) {
    HasSuffix(zone, ".in-addr.arpa.") || HasSuffix(zone, ".ip6.arpa.")
  }

  /** The part of a server-block key after its transport prefix ("dns://" and the like). */
  function StripTransport(key: string): string {
    var i := IndexOf(key, ':');
    if 0 <= i && i + 3 <= |key| && key[i..i + 3] == "://" then key[i + 3..] else key
  }

  /** The host part of "host:port". */
  function StripPort(s: string): string {
    var i := LastIndexOf(s, ':');
    if i < 0 then s else s[..i]
  }

  /** plugin.Host.NormalizeExact()[0]: the normalised host of a server-block key;
      reverse-zone expansion of CIDR keys is not modelled. */
  function HostNormalizeExact(key: string): (r: string)
    ensures IsFqdn(r) && NoUpper(r)
  {
    Normalize(StripPort(StripTransport(key)))
  }
}
