/** A stand-in for Go's `net.IP` with its two parsers, `net.ParseIP` and
    `net.ParseCIDR`. An IPv4 address is its four octets, parsed exactly as the
    dotted-quad grammar demands; an IPv6 address is kept as its lower-cased
    literal, accepted by a syntactic check only (no canonical form). */
module IpAddr {
  import opened Wrappers
  import opened Strings
  import DnsName

  newtype byte = x: int | 0 <= x < 256

  datatype IP = IPv4(a: byte, b: byte, c: byte, d: byte) | IPv6(literal: string)

  /** One dotted-quad field: one to three digits, no leading zero, at most 255. */
  function ParseOctet(s: string): Option<byte> {
    if 1 <= |s| <= 3 && AllDigits(s) && !(|s| > 1 && s[0] == '0') && DecimalValue(s) <= 255
    then Some(DecimalValue(s) as byte)
    else None
  }

  function ParseIPv4(s: string): (r: Option<IP>)
    ensures r.Some? ==> r.value.IPv4?
  {
    var parts := Split(s, '.');
    if |parts| != 4 then None
    else match (ParseOctet(parts[0]), ParseOctet(parts[1]), ParseOctet(parts[2]), ParseOctet(parts[3]))
      case (Some(a), Some(b), Some(c), Some(d)) => Some(IPv4(a, b, c, d))
      case _ => None
  }

  predicate IsHexDigit(c: char) { IsDigit(c) || 'a' <= c <= 'f' || 'A' <= c <= 'F' }

  predicate IsIPv6Char(c: char) { IsHexDigit(c) || c == ':' || c == '.' }

  function ParseIPv6(s: string): (r: Option<IP>)
    ensures r.Some? ==> r.value.IPv6?
  {
    if |s| >= 2 && ':' in s && forall i :: 0 <= i < |s| ==> IsIPv6Char(s[i])
    then Some(IPv6(DnsName.Lower(s)))
    else None
  }

  /** The first '.', ':' or '%' of a literal, or ' ' when it has none. */
  function FirstSeparator(s: string): (c: char)
    ensures c == ' ' || c in s
  {
    if s == [] then ' '
    else if s[0] in ".:%" then s[0]
    else FirstSeparator(s[1..])
  }

  /** net.ParseIP: the first '.', ':' or '%' of the literal decides how it is
      read; a literal with a zone suffix ("fe80::1%eth0") is refused. */
  function ParseIP(s: string): Option<IP> {
    match FirstSeparator(s)
    case '.' => ParseIPv4(s)
    case ':' => ParseIPv6(s)
    case _ => None
  }

  /** net.ParseCIDR, reduced to the address it returns: "addr/len" with a
      decimal prefix length of at most 32 (IPv4) or 128 (IPv6). */
  function ParseCIDR(s: string): Option<IP> {
    var i := IndexOf(s, '/');
    if i < 0 then None
    else
      var mask := s[i + 1..];
      match ParseIP(s[..i])
      case None => None
      case Some(ip) =>
        if mask != [] && AllDigits(mask) && DecimalValue(mask) <= (if ip.IPv4? then 32 else 128)
        then Some(ip)
        else None
  }
}
