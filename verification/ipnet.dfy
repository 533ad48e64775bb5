/** Parsed IP addresses and networks, as Python's `ipaddress` module yields them,
    and the containment test `address in network`. Parsing text into these values
    is library code; the model receives it as an `AddressParser` argument. */
module IpNet {
  import opened Wrappers

  datatype Version = V4 | V6

  function Width(v: Version): nat {
    if v == V4 then 32 else 128
  }

  function Pow2(n: nat): (r: nat)
    ensures r >= 1
  {
    if n == 0 then 1 else 2 * Pow2(n - 1)
  }

  datatype Address = Address(version: Version, value: nat)

  /** `ip_network(text, strict=False)`: the address bits and the prefix length. */
  datatype Network = Network(version: Version, base: nat, prefixLen: nat)

  type ParsedNetwork = n: Network | n.prefixLen <= Width(n.version) witness Network(V4, 0, 0)

  /** What `ip_address(text)` and `ip_network(text, strict=False)` return; `None` where they raise `ValueError`. */
  datatype AddressParser = AddressParser(ip: string -> Option<Address>, cidr: string -> Option<ParsedNetwork>)

  function HostBits(n: ParsedNetwork): nat {
    Width(n.version) - n.prefixLen
  }

  /** `address in network`: same version and the leading `prefixLen` bits agree
      (the mask comparison of section 3.1 of RFC 4632). */
  predicate Contains(n: ParsedNetwork, a: Address) {
    a.version == n.version && a.value / Pow2(HostBits(n)) == n.base / Pow2(HostBits(n))
  }

  /** The first address of the block (`network_address`, host bits cleared). */
  function NetworkAddress(n: ParsedNetwork): nat {
    var q := Pow2(HostBits(n));
    Times(Quot(n.base, q), q)
  }

  function Quot(x: nat, q: nat): nat
    requires q >= 1
  {
    x / q
  }

  function Times(x: nat, y: nat): nat {
    x * y
  }

  lemma MulLe(x: nat, y: nat, q: nat)
    requires x <= y
    ensures x * q <= y * q
  {
    var k := y - x;
    assert y * q == x * q + k * q;
  }

  /** `a // q == m` exactly when `a` lies in the window `[m*q, m*q + q)`. */
  lemma DivWindow(a: nat, q: nat, m: nat)
    requires q >= 1
    ensures a / q == m <==> m * q <= a < m * q + q
  {
    var d, r := a / q, a % q;
    assert a == d * q + r && 0 <= r < q;
    assert (d + 1) * q == d * q + q;
    assert (m + 1) * q == m * q + q;
    if d < m {
      MulLe(d + 1, m, q);
    } else if d > m {
      MulLe(m + 1, d, q);
    }
  }

  /** Containment as a range: the address lies between the network address and the
      broadcast address of the block. */
  lemma ContainsAsRange(n: ParsedNetwork, a: Address)
    ensures Contains(n, a) <==>
      a.version == n.version && NetworkAddress(n) <= a.value < NetworkAddress(n) + Pow2(HostBits(n))
  {
    var q := Pow2(HostBits(n));
    var m := n.base / q;
    assert NetworkAddress(n) == m * q;
    DivWindow(a.value, q, m);
  }

  /** The dotted-quad address `a.b.c.d`. */
  function Dotted(a: nat, b: nat, c: nat, d: nat): Address
    requires a < 256 && b < 256 && c < 256 && d < 256
  {
    Address(V4, ((a * 256 + b) * 256 + c) * 256 + d)
  }

  /** 10.0.0.10 lies in 10.0.0.0/24 and 10.0.1.10 does not. */
  lemma SlashTwentyFourExample()
    ensures var net := Network(V4, Dotted(10, 0, 0, 0).value, 24);
      Contains(net, Dotted(10, 0, 0, 10)) && !Contains(net, Dotted(10, 0, 1, 10))
  {
    assert Pow2(8) == 256;
  }
}
