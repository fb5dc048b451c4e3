/** Name expansion (resolvers.go): the container's primary name, the
    normalisation of a name into a fully-qualified name under one of the
    plugin's origins, and the expansion of candidate names against the zone
    suffixes into a duplicate-free list of FQDNs. */
module Resolvers {
  import opened Wrappers
  import opened Strings
  import opened DnsName
  import opened Records

  /** strings.TrimLeft(s, "/") */
  function TrimLeftSlashes(s: string): (r: string)
    ensures |r| <= |s| && r == s[|s| - |r|..]
    ensures forall i :: 0 <= i < |s| - |r| ==> s[i] == '/'
    ensures r == [] || r[0] != '/'
  {
    if s != [] && s[0] == '/' then TrimLeftSlashes(s[1..]) else s
  }

  /** normalizeContainerName: the runtime's name without its leading slashes. */
  function NormalizeContainerName(c: Container): (r: string)
    ensures r == [] || r[0] != '/'
    ensures exists k :: 0 <= k <= |c.name| && c.name == Slashes(k) + r
  {
    var r := TrimLeftSlashes(c.name);
    assert c.name == Slashes(|c.name| - |r|) + r;
    r
  }

  function Slashes(k: nat): (s: string)
    ensures |s| == k && forall i :: 0 <= i < k ==> s[i] == '/'
  {
    seq(k, _ => '/')
  }

  /** A name the plugin may publish: lower-case, fully qualified, under an origin. */
  predicate IsHostName(origins: seq<string>, x: string) {
    IsFqdn(x) && NoUpper(x) && InZones(origins, x)
  }

  /** toFQDN: the normalised name, or an error when it lies under no origin. */
  function ToFQDN(name: string, origins: seq<string>): (r: Result<string, Error>)
    ensures r.Success? <==> InZones(origins, Normalize(name))
    ensures r.Success? ==> r.value == Normalize(name) && IsHostName(origins, r.value)
  {
    var n := Normalize(name);
    if Matches(origins, n) == "" then Failure(NotInOrigins(n)) else Success(n)
  }

  /** One domain joined with every zone suffix, in zone order. */
  function Row(domain: string, rzones: seq<string>): (r: seq<string>)
    ensures |r| == |rzones|
    ensures forall k :: 0 <= k < |rzones| ==> r[k] == domain + rzones[k]
  {
    seq(|rzones|, k requires 0 <= k < |rzones| => domain + rzones[k])
  }

  /** Every domain joined with every zone suffix, domain-major. */
  function Joined(domains: seq<string>, rzones: seq<string>): seq<string> {
    if domains == [] then []
    else Joined(domains[..|domains| - 1], rzones) + Row(domains[|domains| - 1], rzones)
  }

  /** The FQDN one candidate contributes: none for an empty candidate or one
      that toFQDN rejects. */
  function Expand(name: string, origins: seq<string>): (r: Option<string>)
    ensures name == "" ==> r.None?
    ensures name != "" ==> (r.Some? <==> InZones(origins, Normalize(name)))
    ensures r.Some? ==> r.value == Normalize(name) && IsHostName(origins, r.value)
  {
    if name == "" then None
    else match ToFQDN(name, origins)
      case Success(n) => Some(n)
      case Failure(_) => None
  }

  /** The FQDNs of the candidates, in order. */
  function Accepted(names: seq<string>, origins: seq<string>): seq<string> {
    if names == [] then []
    else
      var prev := Accepted(names[..|names| - 1], origins);
      match Expand(names[|names| - 1], origins)
      case Some(n) => prev + [n]
      case None => prev
  }

  /** The first occurrence of every element, in order. */
  function Dedup(s: seq<string>): seq<string> {
    if s == [] then []
    else
      var d := Dedup(s[..|s| - 1]);
      if s[|s| - 1] in d then d else d + [s[|s| - 1]]
  }

  predicate NoDup(s: seq<string>) {
    forall i, j :: 0 <= i < j < |s| ==> s[i] != s[j]
  }

  /** The host list makeFQDNs builds from candidate domains and zone suffixes. */
  function FQDNs(domains: seq<string>, rzones: seq<string>, origins: seq<string>): seq<string> {
    Dedup(Accepted(Joined(domains, rzones), origins))
  }

  /** makeFQDNs: the nested loop over domains and zone suffixes with a seen-set. */
  method MakeFQDNs(domains: seq<string>, rzones: seq<string>, origins: seq<string>) returns (dl: seq<string>)
    ensures dl == FQDNs(domains, rzones, origins)
  {
    var seen: set<string> := {};
    dl := [];
    for j := 0 to |domains|
      invariant dl == Dedup(Accepted(Joined(domains[..j], rzones), origins))
      invariant forall x :: x in seen <==> x in dl
    {
      ghost var before := Joined(domains[..j], rzones);
      assert before + Row(domains[j], rzones[..0]) == before;
      for k := 0 to |rzones|
        invariant dl == Dedup(Accepted(before + Row(domains[j], rzones[..k]), origins))
        invariant forall x :: x in seen <==> x in dl
      {
        ghost var done := before + Row(domains[j], rzones[..k]);
        var name := domains[j] + rzones[k];
        RowSnoc(domains[j], rzones, k);
        assert before + Row(domains[j], rzones[..k + 1]) == done + [name];
        AcceptedSnoc(done, name, origins);
        if name == "" {
          continue;
        }
        var r := ToFQDN(name, origins);
        if r.Failure? {
          continue;
        }
        DedupSnoc(Accepted(done, origins), r.value);
        if r.value in seen {
          continue;
        }
        dl := dl + [r.value];
        seen := seen + {r.value};
      }
      assert rzones[..|rzones|] == rzones;
      assert domains[..j + 1][..j] == domains[..j];
    }
    assert domains[..|domains|] == domains;
  }

  lemma RowSnoc(domain: string, rzones: seq<string>, k: int)
    requires 0 <= k < |rzones|
    ensures Row(domain, rzones[..k + 1]) == Row(domain, rzones[..k]) + [domain + rzones[k]]
  {
    var a, b := Row(domain, rzones[..k + 1]), Row(domain, rzones[..k]) + [domain + rzones[k]];
    assert |a| == |b|;
    forall i | 0 <= i < |a| ensures a[i] == b[i] {
      if i < k {
        assert rzones[..k + 1][i] == rzones[..k][i];
      }
    }
  }

  lemma AcceptedSnoc(names: seq<string>, name: string, origins: seq<string>)
    ensures Accepted(names + [name], origins) ==
      match Expand(name, origins) case Some(n) => Accepted(names, origins) + [n] case None => Accepted(names, origins)
  {
    assert (names + [name])[..|names|] == names;
  }

  lemma DedupSnoc(s: seq<string>, x: string)
    ensures Dedup(s + [x]) == if x in Dedup(s) then Dedup(s) else Dedup(s) + [x]
  {
    assert (s + [x])[..|s|] == s;
  }

  lemma {:induction false} DedupMembers(s: seq<string>)
    ensures forall x :: x in Dedup(s) <==> x in s
    ensures NoDup(Dedup(s))
    ensures |Dedup(s)| <= |s|
  {
    if s != [] {
      var init := s[..|s| - 1];
      DedupMembers(init);
      assert s == init + [s[|s| - 1]];
    }
  }

  lemma {:induction false} AcceptedHostNames(names: seq<string>, origins: seq<string>)
    ensures forall x :: x in Accepted(names, origins) ==> IsHostName(origins, x)
    ensures |Accepted(names, origins)| <= |names|
  {
    if names != [] {
      AcceptedHostNames(names[..|names| - 1], origins);
    }
  }

  lemma {:induction false} AcceptedMembers(names: seq<string>, origins: seq<string>, x: string)
    ensures x in Accepted(names, origins) <==> exists name :: name in names && Expand(name, origins) == Some(x)
  {
    if names != [] {
      var init, last := names[..|names| - 1], names[|names| - 1];
      assert names == init + [last];
      AcceptedMembers(init, origins, x);
      if x in Accepted(names, origins) {
        if x in Accepted(init, origins) {
          var name :| name in init && Expand(name, origins) == Some(x);
          assert name in names;
        } else {
          assert last in names && Expand(last, origins) == Some(x);
        }
      }
      if exists name :: name in names && Expand(name, origins) == Some(x) {
        var name :| name in names && Expand(name, origins) == Some(x);
        if name !in init {
          assert name == last;
        }
      }
    }
  }

  /** Names that are already publishable FQDNs are all accepted, in order. */
  lemma {:induction false} AcceptedFixed(names: seq<string>, origins: seq<string>)
    requires forall i :: 0 <= i < |names| ==> Expand(names[i], origins) == Some(names[i])
    ensures Accepted(names, origins) == names
  {
    if names != [] {
      var init, last := names[..|names| - 1], names[|names| - 1];
      forall i | 0 <= i < |init| ensures Expand(init[i], origins) == Some(init[i]) {
        assert init[i] == names[i];
      }
      AcceptedFixed(init, origins);
      assert Expand(last, origins) == Some(last);
      SplitLast(names);
    }
  }

  lemma {:induction false} JoinedLength(domains: seq<string>, rzones: seq<string>)
    ensures |Joined(domains, rzones)| == |domains| * |rzones|
  {
    if domains != [] {
      JoinedLength(domains[..|domains| - 1], rzones);
      MulStep(|domains| - 1, |rzones|);
    }
  }

  lemma {:induction false} JoinedSound(domains: seq<string>, rzones: seq<string>, x: string)
    requires x in Joined(domains, rzones)
    ensures exists j, k :: 0 <= j < |domains| && 0 <= k < |rzones| && x == domains[j] + rzones[k]
  {
    var n := |domains| - 1;
    var init := domains[..n];
    if x in Joined(init, rzones) {
      JoinedSound(init, rzones, x);
      var j, k :| 0 <= j < |init| && 0 <= k < |rzones| && x == init[j] + rzones[k];
      assert domains[j] == init[j];
    } else {
      var k :| 0 <= k < |rzones| && Row(domains[n], rzones)[k] == x;
    }
  }

  lemma {:induction false} JoinedComplete(domains: seq<string>, rzones: seq<string>, j: int, k: int)
    requires 0 <= j < |domains| && 0 <= k < |rzones|
    ensures domains[j] + rzones[k] in Joined(domains, rzones)
  {
    var n := |domains| - 1;
    var init := domains[..n];
    if j < n {
      JoinedComplete(init, rzones, j, k);
      assert domains[j] == init[j];
    } else {
      assert Row(domains[n], rzones)[k] == domains[j] + rzones[k];
    }
  }

  lemma MulStep(j: int, w: int)
    ensures (j + 1) * w == j * w + w
  {
  }

  /** What makeFQDNs promises: no duplicates, only publishable names, and at
      most one name per (domain, zone) pair. */
  lemma FQDNsSpec(domains: seq<string>, rzones: seq<string>, origins: seq<string>)
    ensures NoDup(FQDNs(domains, rzones, origins))
    ensures forall x :: x in FQDNs(domains, rzones, origins) ==> IsHostName(origins, x)
    ensures |FQDNs(domains, rzones, origins)| <= |domains| * |rzones|
  {
    var joined := Joined(domains, rzones);
    JoinedLength(domains, rzones);
    AcceptedHostNames(joined, origins);
    DedupMembers(Accepted(joined, origins));
  }

  /** Every name makeFQDNs returns is the FQDN of a non-empty join of one of
      the domains with one of the zone suffixes. */
  lemma FQDNsSound(domains: seq<string>, rzones: seq<string>, origins: seq<string>, x: string)
    requires x in FQDNs(domains, rzones, origins)
    ensures exists j, k :: 0 <= j < |domains| && 0 <= k < |rzones| && Expand(domains[j] + rzones[k], origins) == Some(x)
  {
    var joined := Joined(domains, rzones);
    var accepted := Accepted(joined, origins);
    DedupMembers(accepted);
    AcceptedMembers(joined, origins, x);
    var name :| name in joined && Expand(name, origins) == Some(x);
    JoinedSound(domains, rzones, name);
  }

  /** Every accepted join of a domain with a zone suffix is returned by makeFQDNs. */
  lemma FQDNsComplete(domains: seq<string>, rzones: seq<string>, origins: seq<string>, j: int, k: int)
    requires 0 <= j < |domains| && 0 <= k < |rzones|
    requires Expand(domains[j] + rzones[k], origins).Some?
    ensures Expand(domains[j] + rzones[k], origins).value in FQDNs(domains, rzones, origins)
  {
    var x := Expand(domains[j] + rzones[k], origins).value;
    var joined := Joined(domains, rzones);
    var accepted := Accepted(joined, origins);
    JoinedComplete(domains, rzones, j, k);
    AcceptedMembers(joined, origins, x);
    DedupMembers(accepted);
  }
}
