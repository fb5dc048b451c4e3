/** The registry (map.go): records by id, addresses by host name (one index
    per family) and, when reverse entries are kept, host names by address.
    The class `Map` changes its maps in place; the functions `Added` and
    `Removed` give the state each of its operations leaves behind. */
module Registry {
  import opened Strings
  import opened IpAddr
  import opened Records

  /** The four indexes of the registry. */
  datatype State = State(
    ids: map<string, ContainerData>,
    name4: map<string, seq<IP>>,
    name6: map<string, seq<IP>>,
    addr: map<IP, seq<string>>)

  const Empty := State(map[], map[], map[], map[])

  /** Every record is filed under its own id. */
  predicate Valid(s: State) {
    forall k :: k in s.ids ==> s.ids[k].id == k
  }

  /** Store `v` under each key in turn. */
  function StoreAll<K, V>(m: map<K, V>, keys: seq<K>, v: V): map<K, V> {
    if keys == [] then m else StoreAll(m, keys[..|keys| - 1], v)[keys[|keys| - 1] := v]
  }

  /** Delete each key in turn. */
  function DeleteAll<K, V>(m: map<K, V>, keys: seq<K>): map<K, V> {
    if keys == [] then m else DeleteAll(m, keys[..|keys| - 1]) - {keys[|keys| - 1]}
  }

  /** The number of occurrences of `x` in `s`. */
  function Count<T(==)>(s: seq<T>, x: T): (n: nat)
    ensures n <= |s|
    ensures n == 0 <==> x !in s
  {
    if s == [] then 0 else Count(s[..|s| - 1], x) + (if s[|s| - 1] == x then 1 else 0)
  }

  /** `hosts` repeated `n` times. */
  function Repeat<T>(hosts: seq<T>, n: nat): (r: seq<T>)
    ensures |r| == n * |hosts|
  {
    if n == 0 then [] else Repeat(hosts, n - 1) + hosts
  }

  /** The closure `add` of addAddrs: for each address in turn, the host
      names are appended to the names already filed under it, or filed as
      they are when there are none. */
  function AppendNames<K, T>(m: map<K, seq<T>>, ips: seq<K>, hosts: seq<T>): map<K, seq<T>> {
    if ips == [] then m
    else
      var prev := AppendNames(m, ips[..|ips| - 1], hosts);
      var ip := ips[|ips| - 1];
      prev[ip := if ip in prev then prev[ip] + hosts else hosts]
  }

  /** The state after addContainer(info). */
  function Added(s: State, info: ContainerData, autoReverse: bool): (r: State)
    ensures Valid(s) ==> Valid(r)
    ensures info.id in r.ids && r.ids[info.id] == info
  {
    State(
      s.ids[info.id := info],
      if |info.ipv4| != 0 then StoreAll(s.name4, info.hosts, info.ipv4) else s.name4,
      if |info.ipv6| != 0 then StoreAll(s.name6, info.hosts, info.ipv6) else s.name6,
      if autoReverse then AppendNames(AppendNames(s.addr, info.ipv4, info.hosts), info.ipv6, info.hosts) else s.addr)
  }

  /** The state after removeContainer(id): nothing happens for an unknown
      id; otherwise the record is deleted under its own id, and its hosts
      and addresses are deleted from the other indexes. */
  function Removed(s: State, id: string): (r: State)
    ensures Valid(s) ==> Valid(r)
    ensures Valid(s) ==> id !in r.ids
  {
    if id !in s.ids then s
    else
      var info := s.ids[id];
      State(
        s.ids - {info.id},
        DeleteAll(s.name4, info.hosts),
        DeleteAll(s.name6, info.hosts),
        DeleteAll(DeleteAll(s.addr, info.ipv4), info.ipv6))
  }

  /** The registry object (type Map) with its four maps and the switch for
      reverse entries. */
  class Map {
    var ids: map<string, ContainerData>
    var name4: map<string, seq<IP>>
    var name6: map<string, seq<IP>>
    var addr: map<IP, seq<string>>
    var autoReverse: bool

    function Snapshot(): State
      reads this
    {
      State(ids, name4, name6, addr)
    }

    constructor(autoReverse: bool)
      ensures Snapshot() == Empty && this.autoReverse == autoReverse
    {
      ids, name4, name6, addr := map[], map[], map[], map[];
      this.autoReverse := autoReverse;
    }

    /** addContainer */
    method AddContainer(info: ContainerData)
      modifies this
      ensures Snapshot() == Added(old(Snapshot()), info, autoReverse)
      ensures autoReverse == old(autoReverse)
    {
      ids := ids[info.id := info];
      ghost var n4, n6 := name4, name6;
      for i := 0 to |info.hosts|
        invariant name4 == if |info.ipv4| != 0 then StoreAll(n4, info.hosts[..i], info.ipv4) else n4
        invariant name6 == if |info.ipv6| != 0 then StoreAll(n6, info.hosts[..i], info.ipv6) else n6
        invariant ids == old(ids)[info.id := info] && addr == old(addr) && autoReverse == old(autoReverse)
      {
        assert info.hosts[..i + 1][..i] == info.hosts[..i];
        if |info.ipv4| != 0 {
          name4 := name4[info.hosts[i] := info.ipv4];
        }
        if |info.ipv6| != 0 {
          name6 := name6[info.hosts[i] := info.ipv6];
        }
      }
      assert info.hosts[..|info.hosts|] == info.hosts;
      if autoReverse {
        AddAddrs(info);
      }
    }

    /** addAddrs */
    method AddAddrs(info: ContainerData)
      modifies this
      ensures addr == AppendNames(AppendNames(old(addr), info.ipv4, info.hosts), info.ipv6, info.hosts)
      ensures ids == old(ids) && name4 == old(name4) && name6 == old(name6) && autoReverse == old(autoReverse)
    {
      AddNames(info.ipv4, info.hosts);
      AddNames(info.ipv6, info.hosts);
    }

    /** The closure `add` inside addAddrs: a load, an append and a store per address. */
    method AddNames(ips: seq<IP>, hosts: seq<string>)
      modifies this
      ensures addr == AppendNames(old(addr), ips, hosts)
      ensures ids == old(ids) && name4 == old(name4) && name6 == old(name6) && autoReverse == old(autoReverse)
    {
      for i := 0 to |ips|
        invariant addr == AppendNames(old(addr), ips[..i], hosts)
        invariant ids == old(ids) && name4 == old(name4) && name6 == old(name6) && autoReverse == old(autoReverse)
      {
        assert ips[..i + 1][..i] == ips[..i];
        var names: seq<string>;
        if ips[i] in addr {
          names := addr[ips[i]] + hosts;
        } else {
          names := hosts;
        }
        addr := addr[ips[i] := names];
      }
      assert ips[..|ips|] == ips;
    }

    /** removeContainer */
    method RemoveContainer(id: string)
      modifies this
      ensures Snapshot() == Removed(old(Snapshot()), id)
      ensures autoReverse == old(autoReverse)
    {
      if id !in ids {
        return;
      }
      var info := ids[id];
      ids := ids - {info.id};
      ghost var n4, n6 := name4, name6;
      for i := 0 to |info.hosts|
        invariant name4 == DeleteAll(n4, info.hosts[..i]) && name6 == DeleteAll(n6, info.hosts[..i])
        invariant ids == old(ids) - {info.id} && addr == old(addr) && autoReverse == old(autoReverse)
      {
        assert info.hosts[..i + 1][..i] == info.hosts[..i];
        name4 := name4 - {info.hosts[i]};
        name6 := name6 - {info.hosts[i]};
      }
      assert info.hosts[..|info.hosts|] == info.hosts;
      RmAddrs(info);
    }

    /** rmAddrs */
    method RmAddrs(info: ContainerData)
      modifies this
      ensures addr == DeleteAll(DeleteAll(old(addr), info.ipv4), info.ipv6)
      ensures ids == old(ids) && name4 == old(name4) && name6 == old(name6) && autoReverse == old(autoReverse)
    {
      DeleteAddrs(info.ipv4);
      DeleteAddrs(info.ipv6);
    }

    /** The closure `rm` inside rmAddrs. */
    method DeleteAddrs(ips: seq<IP>)
      modifies this
      ensures addr == DeleteAll(old(addr), ips)
      ensures ids == old(ids) && name4 == old(name4) && name6 == old(name6) && autoReverse == old(autoReverse)
    {
      for i := 0 to |ips|
        invariant addr == DeleteAll(old(addr), ips[..i])
        invariant ids == old(ids) && name4 == old(name4) && name6 == old(name6) && autoReverse == old(autoReverse)
      {
        assert ips[..i + 1][..i] == ips[..i];
        addr := addr - {ips[i]};
      }
      assert ips[..|ips|] == ips;
    }
  }

  /** A key stored by `StoreAll` maps to the stored value; every other key
      keeps its entry, or its absence. */
  lemma {:induction false} StoreAllSpec<K, V>(m: map<K, V>, keys: seq<K>, v: V, k: K)
    ensures k in keys ==> k in StoreAll(m, keys, v) && StoreAll(m, keys, v)[k] == v
    ensures k !in keys ==> (k in StoreAll(m, keys, v) <==> k in m)
    ensures k !in keys && k in m ==> StoreAll(m, keys, v)[k] == m[k]
  {
    if keys != [] {
      StoreAllSpec(m, keys[..|keys| - 1], v, k);
      SplitLast(keys);
    }
  }

  /** `DeleteAll` removes exactly the listed keys. */
  lemma {:induction false} DeleteAllSpec<K, V>(m: map<K, V>, keys: seq<K>, k: K)
    ensures k in DeleteAll(m, keys) <==> k in m && k !in keys
    ensures k in DeleteAll(m, keys) ==> DeleteAll(m, keys)[k] == m[k]
  {
    if keys != [] {
      DeleteAllSpec(m, keys[..|keys| - 1], k);
      SplitLast(keys);
    }
  }

  /** The names filed under `k`, or none. */
  function Filed<K, T>(m: map<K, seq<T>>, k: K): seq<T> {
    if k in m then m[k] else []
  }

  lemma ConcatAssoc<T>(a: seq<T>, b: seq<T>, c: seq<T>)
    ensures (a + b) + c == a + (b + c)
  {
  }

  /** After `AppendNames`, an address carries the names it had before,
      followed by the host names once for every time it is listed;
      addresses not listed keep their entry or absence. */
  lemma {:induction false} AppendNamesSpec<K, T>(m: map<K, seq<T>>, ips: seq<K>, hosts: seq<T>, ip: K)
    ensures ip in AppendNames(m, ips, hosts) <==> ip in m || ip in ips
    ensures Filed(AppendNames(m, ips, hosts), ip) == Filed(m, ip) + Repeat(hosts, Count(ips, ip))
  {
    if ips != [] {
      var init, last := ips[..|ips| - 1], ips[|ips| - 1];
      AppendNamesSpec(m, init, hosts, ip);
      SplitLast(ips);
      if last == ip {
        ConcatAssoc(Filed(m, ip), Repeat(hosts, Count(init, ip)), hosts);
      }
    }
  }

  /** addContainer files the record under its id, points every one of its
      host names at its address list of each family that is not empty, and
      leaves the index of an empty family and every other host name as it
      was (a host name dropped by an update keeps its old entry). */
  lemma AddedForward(s: State, info: ContainerData, autoReverse: bool, h: string)
    ensures Added(s, info, autoReverse).ids == s.ids[info.id := info]
    ensures h in info.hosts && |info.ipv4| != 0 ==>
      h in Added(s, info, autoReverse).name4 && Added(s, info, autoReverse).name4[h] == info.ipv4
    ensures h in info.hosts && |info.ipv6| != 0 ==>
      h in Added(s, info, autoReverse).name6 && Added(s, info, autoReverse).name6[h] == info.ipv6
    ensures |info.ipv4| == 0 ==> Added(s, info, autoReverse).name4 == s.name4
    ensures |info.ipv6| == 0 ==> Added(s, info, autoReverse).name6 == s.name6
    ensures h !in info.hosts ==>
      (h in Added(s, info, autoReverse).name4 <==> h in s.name4) &&
      (h in s.name4 ==> Added(s, info, autoReverse).name4[h] == s.name4[h]) &&
      (h in Added(s, info, autoReverse).name6 <==> h in s.name6) &&
      (h in s.name6 ==> Added(s, info, autoReverse).name6[h] == s.name6[h])
  {
    StoreAllSpec(s.name4, info.hosts, info.ipv4, h);
    StoreAllSpec(s.name6, info.hosts, info.ipv6, h);
  }

  /** Two rounds of `AppendNames` with the same host names add the counts
      of both lists. */
  lemma AppendNamesTwice<K, T>(m: map<K, seq<T>>, xs: seq<K>, ys: seq<K>, hosts: seq<T>, ip: K)
    ensures ip in AppendNames(AppendNames(m, xs, hosts), ys, hosts) <==> ip in m || ip in xs || ip in ys
    ensures Filed(AppendNames(AppendNames(m, xs, hosts), ys, hosts), ip) ==
      Filed(m, ip) + Repeat(hosts, Count(xs, ip) + Count(ys, ip))
  {
    var mid := AppendNames(m, xs, hosts);
    AppendNamesSpec(m, xs, hosts, ip);
    AppendNamesSpec(mid, ys, hosts, ip);
    RepeatAdd(hosts, Count(xs, ip), Count(ys, ip));
    ConcatAssoc(Filed(m, ip), Repeat(hosts, Count(xs, ip)), Repeat(hosts, Count(ys, ip)));
  }

  /** Only when reverse entries are kept does addContainer touch the reverse
      index; it then appends the host names to the entry of each of the
      record's addresses, once per listing (IPv4 first, then IPv6), and
      leaves every other address as it was. */
  lemma AddedReverse(s: State, info: ContainerData, autoReverse: bool, ip: IP)
    ensures !autoReverse ==> Added(s, info, autoReverse).addr == s.addr
    ensures autoReverse ==>
      (ip in Added(s, info, autoReverse).addr <==> ip in s.addr || ip in info.ipv4 || ip in info.ipv6)
    ensures autoReverse && ip in Added(s, info, autoReverse).addr ==>
      Added(s, info, autoReverse).addr[ip] ==
        (if ip in s.addr then s.addr[ip] else []) + Repeat(info.hosts, Count(info.ipv4, ip) + Count(info.ipv6, ip))
  {
    AppendNamesTwice(s.addr, info.ipv4, info.ipv6, info.hosts, ip);
  }

  lemma {:induction false} RepeatAdd<T>(hosts: seq<T>, a: nat, b: nat)
    ensures Repeat(hosts, a) + Repeat(hosts, b) == Repeat(hosts, a + b)
  {
    if b != 0 {
      RepeatAdd(hosts, a, b - 1);
    }
  }

  /** Adding the same record twice leaves the same forward indexes as
      adding it once. */
  lemma AddedForwardIdempotent(s: State, info: ContainerData, autoReverse: bool)
    ensures Added(Added(s, info, autoReverse), info, autoReverse).ids == Added(s, info, autoReverse).ids
    ensures Added(Added(s, info, autoReverse), info, autoReverse).name4 == Added(s, info, autoReverse).name4
    ensures Added(Added(s, info, autoReverse), info, autoReverse).name6 == Added(s, info, autoReverse).name6
  {
    var once := Added(s, info, autoReverse);
    var twice := Added(once, info, autoReverse);
    forall h | true
      ensures h in twice.name4 <==> h in once.name4
      ensures h in twice.name4 ==> twice.name4[h] == once.name4[h]
      ensures h in twice.name6 <==> h in once.name6
      ensures h in twice.name6 ==> twice.name6[h] == once.name6[h]
    {
      AddedForward(s, info, autoReverse, h);
      AddedForward(once, info, autoReverse, h);
    }
  }

  /** ...whereas the reverse entries are appended again: adding the same
      record a second time makes the entry of each of its addresses longer. */
  lemma ReAddedReverseGrows(s: State, info: ContainerData, ip: IP)
    requires ip in info.ipv4 || ip in info.ipv6
    requires info.hosts != []
    ensures ip in Added(s, info, true).addr && ip in Added(Added(s, info, true), info, true).addr
    ensures |Added(Added(s, info, true), info, true).addr[ip]| > |Added(s, info, true).addr[ip]|
  {
    var once := Added(s, info, true);
    AddedReverse(s, info, true, ip);
    AddedReverse(once, info, true, ip);
    assert Count(info.ipv4, ip) + Count(info.ipv6, ip) > 0;
  }

  /** removeContainer of an unknown id changes nothing; of a known one it
      drops the record, every one of its host names from both forward
      indexes and every one of its addresses from the reverse index, and
      leaves every other entry as it was. */
  lemma RemovedSpec(s: State, id: string, k: string, h: string, ip: IP)
    requires Valid(s)
    ensures id !in s.ids ==> Removed(s, id) == s
    ensures id in s.ids ==>
      (k in Removed(s, id).ids <==> k in s.ids && k != id) &&
      (h in Removed(s, id).name4 <==> h in s.name4 && h !in s.ids[id].hosts) &&
      (h in Removed(s, id).name6 <==> h in s.name6 && h !in s.ids[id].hosts) &&
      (ip in Removed(s, id).addr <==> ip in s.addr && ip !in s.ids[id].ipv4 && ip !in s.ids[id].ipv6)
    ensures h in Removed(s, id).name4 ==> Removed(s, id).name4[h] == s.name4[h]
    ensures h in Removed(s, id).name6 ==> Removed(s, id).name6[h] == s.name6[h]
    ensures ip in Removed(s, id).addr ==> Removed(s, id).addr[ip] == s.addr[ip]
  {
    if id in s.ids {
      var info := s.ids[id];
      DeleteAllSpec(s.name4, info.hosts, h);
      DeleteAllSpec(s.name6, info.hosts, h);
      DeleteAllSpec(s.addr, info.ipv4, ip);
      DeleteAllSpec(DeleteAll(s.addr, info.ipv4), info.ipv6, ip);
    }
  }

  /** Adding a record whose id, host names and addresses are all new, and
      removing it again, gives back the registry it started from. */
  lemma AddRemoveRoundTrip(s: State, info: ContainerData, autoReverse: bool)
    requires info.id !in s.ids
    requires forall h :: h in info.hosts ==> h !in s.name4 && h !in s.name6
    requires forall ip :: ip in info.ipv4 || ip in info.ipv6 ==> ip !in s.addr
    ensures Removed(Added(s, info, autoReverse), info.id) == s
  {
    var a := Added(s, info, autoReverse);
    var r := Removed(a, info.id);
    assert r.ids == s.ids;
    forall h | true
      ensures h in r.name4 <==> h in s.name4
      ensures h in r.name4 ==> r.name4[h] == s.name4[h]
      ensures h in r.name6 <==> h in s.name6
      ensures h in r.name6 ==> r.name6[h] == s.name6[h]
    {
      AddedForward(s, info, autoReverse, h);
      DeleteAllSpec(a.name4, info.hosts, h);
      DeleteAllSpec(a.name6, info.hosts, h);
    }
    forall ip | true
      ensures ip in r.addr <==> ip in s.addr
      ensures ip in r.addr ==> r.addr[ip] == s.addr[ip]
    {
      AddedReverse(s, info, autoReverse, ip);
      DeleteAllSpec(a.addr, info.ipv4, ip);
      DeleteAllSpec(DeleteAll(a.addr, info.ipv4), info.ipv6, ip);
    }
  }
}
