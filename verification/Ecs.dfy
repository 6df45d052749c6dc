/** Machine words of any width as natural numbers, with the operators the mask is built from. */
module Bits {
  import opened Arithmetic

  function Pow2(n: nat): (r: nat)
    ensures r >= 1
  {
    if n == 0 then 1 else 2 * Pow2(n - 1)
  }

  /** Bitwise and. */
  function And(x: nat, y: nat): nat {
    if x == 0 || y == 0 then 0 else x % 2 * (y % 2) + 2 * And(x / 2, y / 2)
  }

  /** Bitwise complement of an n-bit word. */
  function Not(x: nat, n: nat): nat
    requires x < Pow2(n)
  {
    Pow2(n) - 1 - x
  }

  /** Left shift of an n-bit word: bits pushed out are lost. */
  function Shl(x: nat, k: nat, n: nat): nat {
    x * Pow2(k) % Pow2(n)
  }

  /** Keeps the top `prefix` bits of an n-bit word. */
  function MaskBits(value: nat, prefix: nat, n: nat): nat
    requires prefix <= n
  {
    if prefix == 0 then 0 else And(value, Shl(Not(0, n), n - prefix, n))
  }

  function Bit(x: nat, i: nat): nat {
    if i == 0 then x % 2 else Bit(x / 2, i - 1)
  }

  /** `And` is the bitwise operation: each bit of the result is the product of the two bits. */
  lemma {:induction false} AndIsBitwise(x: nat, y: nat, i: nat)
    ensures Bit(And(x, y), i) == Bit(x, i) * Bit(y, i)
  {
    if x == 0 || y == 0 {
      BitOfZero(i);
    } else if i > 0 {
      assert And(x, y) / 2 == And(x / 2, y / 2);
      AndIsBitwise(x / 2, y / 2, i - 1);
    }
  }

  lemma {:induction false} BitOfZero(i: nat)
    ensures Bit(0, i) == 0
  {
    if i > 0 { BitOfZero(i - 1); }
  }

  lemma {:induction false} Pow2Sum(a: nat, b: nat)
    ensures Pow2(a + b) == Pow2(a) * Pow2(b)
  {
    if a > 0 {
      Pow2Sum(a - 1, b);
      assert Pow2(a + b) == 2 * Pow2(a - 1 + b);
    }
  }

  lemma {:induction false} Pow2Grows(a: nat, b: nat)
    requires a <= b
    ensures Pow2(a) <= Pow2(b)
  {
    if a < b { Pow2Grows(a, b - 1); }
  }

  lemma ModSplits(x: nat, m: nat)
    requires m > 0
    ensures x % (2 * m) == x % 2 + 2 * (x / 2 % m)
  {
    var h := x / 2;
    assert h == h / m * m + h % m;
    assert x == x / 2 * 2 + x % 2;
    assert 2 * (h / m * m) == h / m * (2 * m);
    assert x == h / m * (2 * m) + (x % 2 + 2 * (h % m));
    DivModIs(x, 2 * m, h / m, x % 2 + 2 * (h % m));
  }

  lemma ShiftIdentity(a: int, b: int)
    ensures (a - 1) * b == (b - 1) * a + (a - b)
  {
  }

  lemma ShiftedOnes(k: nat, n: nat)
    requires k < n
    ensures Shl(Not(0, n), k, n) == Pow2(n) - Pow2(k)
  {
    var a, b := Pow2(n), Pow2(k);
    Pow2Grows(k + 1, n);
    ShiftIdentity(a, b);
    DivModIs((a - 1) * b, a, b - 1, a - b);
  }

  lemma {:induction false} AndOnes(x: nat, n: nat)
    requires x < Pow2(n)
    ensures And(x, Pow2(n) - 1) == x
  {
    if n > 0 && x > 0 {
      assert (Pow2(n) - 1) % 2 == 1 && (Pow2(n) - 1) / 2 == Pow2(n - 1) - 1;
      AndOnes(x / 2, n - 1);
    }
  }

  lemma {:induction false} AndHighOnes(x: nat, k: nat, n: nat)
    requires x < Pow2(n) && k <= n && Pow2(k) <= Pow2(n)
    ensures And(x, Pow2(n) - Pow2(k)) == x - x % Pow2(k)
  {
    if k == 0 {
      AndOnes(x, n);
    } else {
      var m := Pow2(n - 1) - Pow2(k - 1);
      Pow2Grows(k - 1, n - 1);
      AndHighOnes(x / 2, k - 1, n - 1);
      assert Pow2(n) - Pow2(k) == 2 * m;
      DoubleTruncates(x, m, Pow2(k - 1));
    }
  }

  lemma DoubleTruncates(x: nat, m: nat, p: nat)
    requires p > 0 && And(x / 2, m) == x / 2 - x / 2 % p
    ensures And(x, 2 * m) == x - x % (2 * p)
  {
    AndEven(x, m);
    ModSplits(x, p);
  }

  lemma AndEven(x: nat, m: nat)
    ensures And(x, 2 * m) == 2 * And(x / 2, m)
  {
  }

  lemma DropRemainder(x: nat, m: nat)
    requires m > 0
    ensures x - x % m == x / m * m && 0 <= x - x % m <= x
  {
  }

  lemma MaskDropsRemainder(x: nat, prefix: nat, n: nat)
    requires x < Pow2(n) && prefix <= n
    ensures MaskBits(x, prefix, n) == x - x % Pow2(n - prefix)
  {
    if prefix == 0 {
      DivModIs(x, Pow2(n), 0, x);
    } else {
      ShiftedOnes(n - prefix, n);
      Pow2Grows(n - prefix, n);
      AndHighOnes(x, n - prefix, n);
    }
  }

  /** The mask clears the low bits and keeps the rest, at every width and every valid prefix. */
  lemma MaskIsTruncation(x: nat, prefix: nat, n: nat)
    requires x < Pow2(n) && prefix <= n
    ensures MaskBits(x, prefix, n) == x - x % Pow2(n - prefix)
    ensures MaskBits(x, prefix, n) == x / Pow2(n - prefix) * Pow2(n - prefix)
    ensures MaskBits(x, prefix, n) < Pow2(n)
  {
    MaskDropsRemainder(x, prefix, n);
    DropRemainder(x, Pow2(n - prefix));
  }

  lemma DividesTwice(x: nat, a: nat, b: nat)
    requires a > 0 && b > 0
    ensures x / a / b == x / (a * b)
  {
    var q := x / a;
    assert x == q * a + x % a;
    assert q == q / b * b + q % b;
    assert q * a == q / b * (a * b) + q % b * a by {
      assert (q / b * b) * a == q / b * (a * b);
    }
    assert q % b * a + x % a < a * b by {
      assert q % b <= b - 1;
      assert q % b * a <= (b - 1) * a;
    }
    DivModIs(x, a * b, q / b, q % b * a + x % a);
  }

  lemma QuotientOfMultiple(q: nat, m: nat)
    requires m > 0
    ensures q * m / m == q
  {
    DivModIs(q * m, m, q, 0);
  }

  /** Rounding down to a multiple. */
  function Trunc(x: nat, m: nat): nat
    requires m > 0
  {
    x / m * m
  }

  lemma TruncFinerLast(x: nat, b: nat, c: nat)
    requires b > 0 && c > 0 && b * c > 0
    ensures Trunc(Trunc(x, b * c), b) == Trunc(x, b * c)
  {
    var q := x / (b * c);
    assert q * (b * c) == q * c * b;
    QuotientOfMultiple(q * c, b);
  }

  lemma TruncCoarserLast(x: nat, a: nat, c: nat)
    requires a > 0 && c > 0 && a * c > 0
    ensures Trunc(Trunc(x, a), a * c) == Trunc(x, a * c)
  {
    DividesTwice(Trunc(x, a), a, c);
    DividesTwice(x, a, c);
    QuotientOfMultiple(x / a, a);
  }

  /** Masking twice is masking once, with the shorter prefix. */
  lemma MaskTwice(x: nat, p: nat, q: nat, n: nat)
    requires x < Pow2(n) && p <= n && q <= n
    ensures MaskBits(x, p, n) < Pow2(n)
    ensures MaskBits(MaskBits(x, p, n), q, n) == MaskBits(x, if p <= q then p else q, n)
  {
    MaskIsTruncation(x, p, n);
    MaskIsTruncation(MaskBits(x, p, n), q, n);
    MaskIsTruncation(x, q, n);
    if p <= q {
      Pow2Sum(n - q, q - p);
      TruncFinerLast(x, Pow2(n - q), Pow2(q - p));
    } else {
      Pow2Sum(n - p, p - q);
      TruncCoarserLast(x, Pow2(n - p), Pow2(p - q));
    }
  }

  /** Two words mask to the same value exactly when their top `prefix` bits agree. */
  lemma MaskEqualIff(x: nat, y: nat, prefix: nat, n: nat)
    requires x < Pow2(n) && y < Pow2(n) && prefix <= n
    ensures MaskBits(x, prefix, n) == MaskBits(y, prefix, n) <==> x / Pow2(n - prefix) == y / Pow2(n - prefix)
  {
    MaskIsTruncation(x, prefix, n);
    MaskIsTruncation(y, prefix, n);
    QuotientOfMultiple(x / Pow2(n - prefix), Pow2(n - prefix));
    QuotientOfMultiple(y / Pow2(n - prefix), Pow2(n - prefix));
  }
}

/** The EDNS client-subnet option put on upstream queries. */
module Ecs {
  import opened Wrappers
  import opened Messages
  import opened Arithmetic
  import opened Bits

  /** Prefix lengths are validated when the configuration is loaded. */
  datatype EcsConfig = EcsConfig(
    edns: bool, subnet: bool, preserveClient: bool, excludePrivate: bool, v4Prefix: nat, v6Prefix: nat)

  predicate ValidConfig(config: EcsConfig) {
    config.v4Prefix <= 32 && config.v6Prefix <= 128
  }

  function Octet(ip: u32, i: nat): nat
    requires i < 4
  {
    ip / Pow2(8 * (3 - i)) % 256
  }

  predicate IsPrivate(a: u32) {
    || Octet(a, 0) == 10
    || (Octet(a, 0) == 172 && 16 <= Octet(a, 1) < 32)
    || (Octet(a, 0) == 192 && Octet(a, 1) == 168)
  }

  predicate IsDocumentation(a: u32) {
    || (Octet(a, 0) == 192 && Octet(a, 1) == 0 && Octet(a, 2) == 2)
    || (Octet(a, 0) == 198 && Octet(a, 1) == 51 && Octet(a, 2) == 100)
    || (Octet(a, 0) == 203 && Octet(a, 1) == 0 && Octet(a, 2) == 113)
  }

  predicate IsPublic(ip: IpAddr) {
    match ip
    case V4(a) =>
      && !IsPrivate(a)
      && Octet(a, 0) != 127
      && !(Octet(a, 0) == 169 && Octet(a, 1) == 254)
      && a != 0xFFFF_FFFF
      && !IsDocumentation(a)
      && a != 0
    case V6(a) =>
      && a != 1
      && a != 0
      && a / Pow2(121) != 0x7E
      && a / Pow2(118) != 0x3FA
  }

  /** An IPv4 address block, by its base address and prefix length. */
  predicate InBlock(ip: u32, base: u32, prefix: nat)
    requires prefix <= 32
  {
    ip / Pow2(32 - prefix) == base / Pow2(32 - prefix)
  }

  lemma OctetsOf(ip: u32)
    ensures Octet(ip, 0) == ip / 0x100_0000
    ensures Octet(ip, 1) == ip / 0x1_0000 % 0x100
    ensures Octet(ip, 2) == ip / 0x100 % 0x100
    ensures Pow2(24) == 0x100_0000 && Pow2(20) == 0x10_0000 && Pow2(16) == 0x1_0000 && Pow2(8) == 0x100 && Pow2(0) == 1
  {
    assert Pow2(8) == 0x100;
    assert Pow2(16) == 0x1_0000;
    assert Pow2(20) == 0x10_0000;
    assert Pow2(24) == 0x100_0000;
  }

  lemma PrivateBlocks(ip: u32)
    ensures IsPrivate(ip) <==>
              InBlock(ip, 0x0A00_0000, 8) || InBlock(ip, 0xAC10_0000, 12) || InBlock(ip, 0xC0A8_0000, 16)
  {
    OctetsOf(ip);
  }

  lemma TopThreeOctets(ip: u32)
    ensures ip / 0x100 == Octet(ip, 0) * 0x1_0000 + Octet(ip, 1) * 0x100 + Octet(ip, 2)
    ensures Octet(ip, 1) < 0x100 && Octet(ip, 2) < 0x100
  {
    OctetsOf(ip);
    assert ip / 0x1_0000 == ip / 0x100 / 0x100 && ip / 0x100_0000 == ip / 0x1_0000 / 0x100;
  }

  lemma InBlock24(ip: u32, base: u32)
    ensures InBlock(ip, base, 24) <==> ip / 0x100 == base / 0x100
  {
    OctetsOf(ip);
  }

  lemma TestNet1(ip: u32)
    ensures Octet(ip, 0) == 192 && Octet(ip, 1) == 0 && Octet(ip, 2) == 2 <==> InBlock(ip, 0xC000_0200, 24)
  {
    TopThreeOctets(ip);
    InBlock24(ip, 0xC000_0200);
  }

  lemma TestNet2(ip: u32)
    ensures Octet(ip, 0) == 198 && Octet(ip, 1) == 51 && Octet(ip, 2) == 100 <==> InBlock(ip, 0xC633_6400, 24)
  {
    TopThreeOctets(ip);
    InBlock24(ip, 0xC633_6400);
  }

  lemma TestNet3(ip: u32)
    ensures Octet(ip, 0) == 203 && Octet(ip, 1) == 0 && Octet(ip, 2) == 113 <==> InBlock(ip, 0xCB00_7100, 24)
  {
    TopThreeOctets(ip);
    InBlock24(ip, 0xCB00_7100);
  }

  lemma DocumentationBlocks(ip: u32)
    ensures IsDocumentation(ip) <==>
              InBlock(ip, 0xC000_0200, 24) || InBlock(ip, 0xC633_6400, 24) || InBlock(ip, 0xCB00_7100, 24)
  {
    TestNet1(ip);
    TestNet2(ip);
    TestNet3(ip);
  }

  lemma LocalBlocks(ip: u32)
    ensures Octet(ip, 0) == 127 <==> InBlock(ip, 0x7F00_0000, 8)
    ensures Octet(ip, 0) == 169 && Octet(ip, 1) == 254 <==> InBlock(ip, 0xA9FE_0000, 16)
    ensures ip == 0 <==> InBlock(ip, 0, 32)
    ensures ip == 0xFFFF_FFFF <==> InBlock(ip, 0xFFFF_FFFF, 32)
  {
    OctetsOf(ip);
  }

  /** The IPv4 addresses kept from upstreams are those of the special-purpose blocks. */
  lemma PublicV4Iff(ip: u32)
    ensures IsPublic(V4(ip)) <==>
              !(|| InBlock(ip, 0x0A00_0000, 8) || InBlock(ip, 0xAC10_0000, 12) || InBlock(ip, 0xC0A8_0000, 16)
                || InBlock(ip, 0x7F00_0000, 8) || InBlock(ip, 0xA9FE_0000, 16)
                || InBlock(ip, 0xC000_0200, 24) || InBlock(ip, 0xC633_6400, 24) || InBlock(ip, 0xCB00_7100, 24)
                || InBlock(ip, 0, 32) || InBlock(ip, 0xFFFF_FFFF, 32))
  {
    PrivateBlocks(ip);
    DocumentationBlocks(ip);
    LocalBlocks(ip);
  }

  /** An IPv6 address block, by its base address and prefix length. */
  predicate InBlock6(ip: u128, base: u128, prefix: nat)
    requires prefix <= 128
  {
    ip / Pow2(128 - prefix) == base / Pow2(128 - prefix)
  }

  /** The IPv6 addresses kept from upstreams: unspecified, loopback, unique local and link local. */
  lemma PublicV6Iff(ip: u128)
    ensures IsPublic(V6(ip)) <==>
              !(|| ip == 0 || ip == 1
                || InBlock6(ip, 0xFC00_0000_0000_0000_0000_0000_0000_0000, 7)
                || InBlock6(ip, 0xFE80_0000_0000_0000_0000_0000_0000_0000, 10))
  {
    TopBits();
    DivModIs(0xFC00_0000_0000_0000_0000_0000_0000_0000, Pow2(121), 0x7E, 0);
    DivModIs(0xFE80_0000_0000_0000_0000_0000_0000_0000, Pow2(118), 0x3FA, 0);
  }

  lemma TopBits()
    ensures Pow2(121) * 0x7E == 0xFC00_0000_0000_0000_0000_0000_0000_0000
    ensures Pow2(118) * 0x3FA == 0xFE80_0000_0000_0000_0000_0000_0000_0000
  {
    WordSizes();
    Pow2Sum(121, 7);
    Pow2Sum(118, 10);
    assert Pow2(7) == 0x80;
    assert Pow2(10) == 0x400;
  }

  lemma WordSizes()
    ensures Pow2(32) == 0x1_0000_0000
    ensures Pow2(128) == 0x1_0000_0000_0000_0000_0000_0000_0000_0000
  {
    assert Pow2(8) == 256;
    Pow2Sum(8, 8);
    Pow2Sum(16, 16);
    assert Pow2(32) == 0x1_0000_0000;
    Pow2Sum(32, 32);
    assert Pow2(64) == 0x1_0000_0000_0000_0000;
    Pow2Sum(64, 64);
  }

  function MaskIp(ip: IpAddr, prefix: nat): IpAddr
    requires prefix <= Width(ip)
  {
    WordSizes();
    match ip
    case V4(a) => MaskIsTruncation(a, prefix, 32); V4(MaskBits(a, prefix, 32))
    case V6(a) => MaskIsTruncation(a, prefix, 128); V6(MaskBits(a, prefix, 128))
  }

  function Width(ip: IpAddr): nat {
    if ip.V4? then 32 else 128
  }

  function Word(ip: IpAddr): nat {
    match ip case V4(a) => a case V6(a) => a
  }

  function PrefixFor(ip: IpAddr, config: EcsConfig): nat {
    if ip.V4? then config.v4Prefix else config.v6Prefix
  }

  function ClientSubnet(ip: IpAddr, config: EcsConfig): Option<Subnet>
    requires ValidConfig(config)
  {
    if config.excludePrivate && !IsPublic(ip) then None
    else Some(Subnet(MaskIp(ip, PrefixFor(ip, config)), PrefixFor(ip, config), 0))
  }

  predicate HasEcs(query: Message) {
    query.edns.Some? && query.edns.value.subnet.Some?
  }

  const NEW_EDNS := Edns(false, None, [])

  function WithSubnet(query: Message, subnet: Subnet): Message {
    var edns := if query.edns.Some? then query.edns.value else NEW_EDNS;
    query.(edns := Some(edns.(subnet := Some(subnet))))
  }

  function QueryWithEcs(query: Message, client: Option<IpAddr>, config: EcsConfig): Message
    requires ValidConfig(config)
  {
    if !config.edns || !config.subnet then query
    else if config.preserveClient && HasEcs(query) then query
    else
      match client
      case None => query
      case Some(ip) =>
        match ClientSubnet(ip, config)
        case None => query
        case Some(subnet) => WithSubnet(query, subnet)
  }

  /** Two addresses of one family whose leading bits, as many as the configured prefix, agree. */
  predicate SameSubnet(a: IpAddr, b: IpAddr, config: EcsConfig)
    requires ValidConfig(config)
  {
    a.V4? == b.V4? &&
    Word(a) / Pow2(Width(a) - PrefixFor(a, config)) == Word(b) / Pow2(Width(b) - PrefixFor(b, config))
  }

  lemma MaskIpEqualIff(a: IpAddr, b: IpAddr, config: EcsConfig)
    requires ValidConfig(config)
    ensures MaskIp(a, PrefixFor(a, config)) == MaskIp(b, PrefixFor(b, config)) <==> SameSubnet(a, b, config)
  {
    WordSizes();
    if a.V4? == b.V4? {
      MaskEqualIff(Word(a), Word(b), PrefixFor(a, config), Width(a));
    }
  }

  lemma SubnetMeaning(ip: IpAddr, config: EcsConfig)
    requires ValidConfig(config) && (config.excludePrivate ==> IsPublic(ip))
    ensures ClientSubnet(ip, config).Some?
    ensures var sent := ClientSubnet(ip, config).value;
            && sent.address.V4? == ip.V4?
            && sent.sourcePrefix == (if ip.V4? then config.v4Prefix else config.v6Prefix)
            && sent.scopePrefix == 0
            && Word(sent.address) ==
               Word(ip) - Word(ip) % Pow2(if ip.V4? then 32 - config.v4Prefix else 128 - config.v6Prefix)
  {
    WordSizes();
    MaskIsTruncation(Word(ip), PrefixFor(ip, config), Width(ip));
  }

  /**
   * The option sent: the client's address with everything below the configured prefix cleared,
   * that prefix, and a scope of zero. A query without EDNS gets one that asks for nothing else.
   */
  lemma OptionSent(query: Message, ip: IpAddr, config: EcsConfig)
    requires ValidConfig(config) && Applies(query, ip, config)
    ensures HasEcs(QueryWithEcs(query, Some(ip), config))
    ensures var edns := QueryWithEcs(query, Some(ip), config).edns.value;
            var sent := edns.subnet.value;
            && sent.address.V4? == ip.V4?
            && sent.sourcePrefix == (if ip.V4? then config.v4Prefix else config.v6Prefix)
            && sent.scopePrefix == 0
            && Word(sent.address) ==
               Word(ip) - Word(ip) % Pow2(if ip.V4? then 32 - config.v4Prefix else 128 - config.v6Prefix)
            && (query.edns.None? ==> !edns.dnssecOk && edns.others == [])
            && (query.edns.Some? ==>
                  edns.dnssecOk == query.edns.value.dnssecOk && edns.others == query.edns.value.others)
  {
    SubnetMeaning(ip, config);
    assert QueryWithEcs(query, Some(ip), config) == WithSubnet(query, ClientSubnet(ip, config).value);
  }

  /** And nothing is sent when the option does not apply, or there is no client address. */
  lemma NothingSent(query: Message, client: Option<IpAddr>, config: EcsConfig)
    requires ValidConfig(config) && (client.Some? ==> !Applies(query, client.value, config))
    ensures QueryWithEcs(query, client, config) == query
  {
  }

  /** Whether the forwarder writes the option itself for this client. */
  predicate Applies(query: Message, ip: IpAddr, config: EcsConfig) {
    config.edns && config.subnet && !(config.preserveClient && HasEcs(query))
    && !(config.excludePrivate && !IsPublic(ip))
  }

  /**
   * Two clients for whom the option is written, sending one query, produce the same upstream
   * query if and only if they are in one subnet.
   */
  lemma SameUpstreamQueryIff(query: Message, a: IpAddr, b: IpAddr, config: EcsConfig)
    requires ValidConfig(config) && Applies(query, a, config) && Applies(query, b, config)
    ensures QueryWithEcs(query, Some(a), config) == QueryWithEcs(query, Some(b), config) <==> SameSubnet(a, b, config)
  {
    MaskIpEqualIff(a, b, config);
    var qa, qb := QueryWithEcs(query, Some(a), config), QueryWithEcs(query, Some(b), config);
    assert qa.edns.value.subnet.value.address == MaskIp(a, PrefixFor(a, config));
    assert qb.edns.value.subnet.value.address == MaskIp(b, PrefixFor(b, config));
  }

  /** Only the option changes: id, questions and every other part of the query go upstream as they came. */
  lemma OnlyTheOptionChanges(query: Message, client: Option<IpAddr>, config: EcsConfig)
    requires ValidConfig(config)
    ensures var up := QueryWithEcs(query, client, config);
            && up.(edns := query.edns) == query
            && (query.edns.Some? ==>
                  up.edns.Some? && up.edns.value.(subnet := query.edns.value.subnet) == query.edns.value)
            && (up != query ==> client.Some? && Applies(query, client.value, config) && HasEcs(up))
            && (up != query ==> up.edns.value.subnet.value.sourcePrefix == PrefixFor(client.value, config))
  {
  }
}
