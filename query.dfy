/** How ServeDNS decides its reply (dockerdiscovery.go): hand the query on,
    fail it, or answer it from the forward indexes. Building and writing
    the DNS message is not modelled; an answer carries its owner name, its
    TTL and the addresses its records are made from, one record per
    address (A records as in section 3.4.1 of RFC 1035, AAAA records as in
    section 2.1 of RFC 3596). */
module Query {
  import opened IpAddr
  import opened DnsName
  import opened Records
  import opened Registry

  /** The question types the handler tells apart. */
  datatype QType = A | AAAA | PTR | Other(code: nat)

  datatype Reply =
    | PassThrough                                   // handed to the next plugin
    | ServFail                                      // SERVFAIL, nothing written
    | Answer(owner: string, ttl: nat, ips: seq<IP>) // an authoritative answer

  /** The reply to an A or AAAA lookup: the addresses filed under the key
      in the index of that family, or SERVFAIL when there are none. */
  function Lookup(index: map<string, seq<IP>>, key: string, owner: string, ttl: nat): (r: Reply)
    ensures r.Answer? <==> key in index && index[key] != []
    ensures r.Answer? ==> r == Answer(owner, ttl, index[key])
    ensures !r.Answer? ==> r == ServFail
  {
    if key in index && index[key] != [] then Answer(owner, ttl, index[key]) else ServFail
  }

  /** ServeDNS as written: the zone is matched on the normalised question
      name, which also owns the answer records, but the indexes are
      searched with the question name exactly as it came in. */
  function Serve(origins: seq<string>, ttl: nat, s: State, qname: string, qtype: QType): Reply {
    var name := Normalize(qname);
    if !InZones(origins, name) && qtype != PTR then PassThrough
    else if qtype == A then Lookup(s.name4, qname, name, ttl)
    else if qtype == AAAA then Lookup(s.name6, qname, name, ttl)
    else ServFail
  }

  /** A query outside every origin is handed on unless it asks for PTR; an
      A query is answered only from the IPv4 index and an AAAA query only
      from the IPv6 index, owned by the normalised name and carrying the
      configured TTL; every other outcome, PTR included, is SERVFAIL. */
  lemma ServeSpec(origins: seq<string>, ttl: nat, s: State, qname: string, qtype: QType)
    ensures Serve(origins, ttl, s, qname, qtype) == PassThrough <==>
      !InZones(origins, Normalize(qname)) && qtype != PTR
    ensures Serve(origins, ttl, s, qname, qtype).Answer? <==>
      InZones(origins, Normalize(qname)) &&
      ((qtype == A && qname in s.name4 && s.name4[qname] != []) ||
       (qtype == AAAA && qname in s.name6 && s.name6[qname] != []))
    ensures Serve(origins, ttl, s, qname, qtype).Answer? && qtype == A ==>
      Serve(origins, ttl, s, qname, qtype) == Answer(Normalize(qname), ttl, s.name4[qname])
    ensures Serve(origins, ttl, s, qname, qtype).Answer? && qtype == AAAA ==>
      Serve(origins, ttl, s, qname, qtype) == Answer(Normalize(qname), ttl, s.name6[qname])
    ensures qtype == PTR ==> Serve(origins, ttl, s, qname, qtype) == ServFail
  {
  }

  /** The corrected handler: the indexes are searched with the normalised
      question name, the one the zone was matched on. */
  function ServeFolded(origins: seq<string>, ttl: nat, s: State, qname: string, qtype: QType): Reply {
    Serve(origins, ttl, s, Normalize(qname), qtype)
  }

  /** With the corrected lookup, every spelling of a stored host name gets
      the stored addresses, whatever its letter case. */
  lemma {:induction false} FoldedAnswersAnyCase(origins: seq<string>, ttl: nat, s: State, h: string, qname: string)
    requires Normalize(qname) == h
    requires InZones(origins, h)
    requires h in s.name4 && s.name4[h] != []
    ensures ServeFolded(origins, ttl, s, qname, A) == Answer(h, ttl, s.name4[h])
  {
    NormalizeIdempotent(qname);
  }

  /** For a name already in normal form the two handlers agree. */
  lemma {:induction false} FoldedAgreesOnNormalNames(origins: seq<string>, ttl: nat, s: State, qname: string, qtype: QType)
    requires IsFqdn(qname) && NoUpper(qname)
    ensures ServeFolded(origins, ttl, s, qname, qtype) == Serve(origins, ttl, s, qname, qtype)
  {
    NormalizeFixed(qname);
  }

  const WhoamiIP := IPv4(10, 0, 0, 2)
  const Stored := State(map[], map["whoami.loc." := [WhoamiIP]], map[], map[])

  lemma UpperNormalizes()
    ensures Normalize("WHOAMI.loc.") == "whoami.loc."
  {
    assert Fqdn("WHOAMI.loc.") == "WHOAMI.loc.";
  }

  lemma WhoamiInLoc()
    ensures InZones(["loc."], "whoami.loc.")
  {
    assert "whoami.loc."[|"whoami.loc."| - |".loc."|..] == ".loc.";
  }

  /** A query for "WHOAMI.loc." lies in the zone "loc." once lower-cased,
      but the index holds "whoami.loc." only, so the handler as written
      fails the query where the corrected one answers it. */
  lemma MixedCaseQueryFails()
    ensures InZones(["loc."], Normalize("WHOAMI.loc."))
    ensures Serve(["loc."], 3600, Stored, "WHOAMI.loc.", A) == ServFail
    ensures ServeFolded(["loc."], 3600, Stored, "WHOAMI.loc.", A) == Answer("whoami.loc.", 3600, [WhoamiIP])
  {
    UpperNormalizes();
    WhoamiInLoc();
    assert "WHOAMI.loc." != "whoami.loc." by {
      assert "WHOAMI.loc."[0] != "whoami.loc."[0];
    }
    FoldedAnswersAnyCase(["loc."], 3600, Stored, "whoami.loc.", "WHOAMI.loc.");
  }

  /** End to end: once a record is added, an A query for one of its host
      names that lies in an origin is answered with exactly its IPv4
      addresses when it has some; likewise AAAA with its IPv6 addresses. */
  lemma AddedThenServed(origins: seq<string>, ttl: nat, s: State, info: ContainerData, autoReverse: bool, h: string)
    requires h in info.hosts
    requires InZones(origins, Normalize(h))
    ensures info.ipv4 != [] ==>
      Serve(origins, ttl, Added(s, info, autoReverse), h, A) == Answer(Normalize(h), ttl, info.ipv4)
    ensures info.ipv6 != [] ==>
      Serve(origins, ttl, Added(s, info, autoReverse), h, AAAA) == Answer(Normalize(h), ttl, info.ipv6)
  {
    AddedForward(s, info, autoReverse, h);
  }

  /** And once the record is removed again, such a query fails. */
  lemma RemovedThenFailed(origins: seq<string>, ttl: nat, s: State, id: string, h: string, qtype: QType)
    requires Valid(s) && id in s.ids && h in s.ids[id].hosts
    requires InZones(origins, Normalize(h))
    ensures Serve(origins, ttl, Removed(s, id), h, qtype) == ServFail
  {
    RemovedSpec(s, id, id, h, IPv6(""));
  }
}
