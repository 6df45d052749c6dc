/** Result and option types shared by every module. */
module Wrappers {
  datatype Option<+T> = None | Some(value: T)

  datatype Result<+T, +E> = Ok(value: T) | Err(error: E)
}

/**
 * DNS messages as the forwarder sees them once the wire codec has decoded them.
 * Names are in presentation form; two names are the same name when they agree
 * up to ASCII case, which is how the codec library compares them.
 */
module Messages {
  import opened Wrappers

  newtype byte = x: int | 0 <= x < 0x100
  type u32 = x: int | 0 <= x < 0x1_0000_0000
  type u128 = x: int | 0 <= x < 0x1_0000_0000_0000_0000_0000_0000_0000_0000

  type Name = string

  datatype IpAddr = V4(v4: u32) | V6(v6: u128)

  datatype Subnet = Subnet(address: IpAddr, sourcePrefix: nat, scopePrefix: nat)

  datatype Edns = Edns(dnssecOk: bool, subnet: Option<Subnet>, others: seq<byte>)

  datatype Question = Question(name: Name, qtype: nat, qclass: nat)

  datatype Soa = Soa(mname: Name, rname: Name, serial: u32, refresh: nat, retry: nat, expire: nat, minimum: u32)

  datatype RData = A(v4: u32) | AAAA(v6: u128) | SOA(soa: Soa) | Other(bytes: seq<byte>)

  datatype Record = Record(name: Name, rtype: nat, ttl: u32, data: RData)

  datatype Message = Message(
    id: nat,
    isResponse: bool,
    opCode: nat,
    rcode: nat,
    recursionDesired: bool,
    flags: seq<bool>,
    questions: seq<Question>,
    answers: seq<Record>,
    nameServers: seq<Record>,
    additionals: seq<Record>,
    edns: Option<Edns>)

  datatype UpstreamError =
    | Network(reason: string)
    | Timeout
    | InvalidResponse
    | Serialization
    | AllFailed
    | UnsupportedFeature

  type Answer = Result<Message, UpstreamError>

  function LowerChar(c: char): char {
    if 'A' <= c <= 'Z' then (c as int + 32) as char else c
  }

  function Lower(s: string): (r: string)
    ensures |r| == |s|
    ensures forall i :: 0 <= i < |s| ==> r[i] == LowerChar(s[i])
  {
    seq(|s|, i requires 0 <= i < |s| => LowerChar(s[i]))
  }

  function SetTtls(rs: seq<Record>, ttl: u32): (out: seq<Record>)
    ensures |out| == |rs|
    ensures forall i :: 0 <= i < |rs| ==> out[i] == rs[i].(ttl := ttl)
  {
    seq(|rs|, i requires 0 <= i < |rs| => rs[i].(ttl := ttl))
  }

  function WithTtl(m: Message, ttl: u32): Message {
    m.(answers := SetTtls(m.answers, ttl),
       nameServers := SetTtls(m.nameServers, ttl),
       additionals := SetTtls(m.additionals, ttl))
  }

  /** A message with its id and its TTLs blanked: what must not change on the way through the cache. */
  function Skeleton(m: Message): Message {
    WithTtl(m, 0).(id := 0)
  }

  predicate SameButTtl(a: seq<Record>, b: seq<Record>) {
    |a| == |b| && forall i :: 0 <= i < |a| ==> a[i].(ttl := b[i].ttl) == b[i]
  }

  /** Everything but the id and the TTLs of the records. */
  predicate SameButIdAndTtl(a: Message, b: Message) {
    && a.(id := b.id, answers := b.answers, nameServers := b.nameServers, additionals := b.additionals) == b
    && SameButTtl(a.answers, b.answers)
    && SameButTtl(a.nameServers, b.nameServers)
    && SameButTtl(a.additionals, b.additionals)
  }

  lemma SameButTtlIff(a: seq<Record>, b: seq<Record>)
    ensures SetTtls(a, 0) == SetTtls(b, 0) <==> SameButTtl(a, b)
  {
    if SetTtls(a, 0) == SetTtls(b, 0) {
      assert |SetTtls(a, 0)| == |a| && |SetTtls(b, 0)| == |b|;
      forall i | 0 <= i < |a| ensures a[i].(ttl := b[i].ttl) == b[i] {
        assert SetTtls(a, 0)[i] == a[i].(ttl := 0) && SetTtls(b, 0)[i] == b[i].(ttl := 0);
      }
    }
  }

  /** Blanking ignores the id and the TTLs, and nothing else. */
  lemma SkeletonEqualIff(a: Message, b: Message)
    ensures Skeleton(a) == Skeleton(b) <==> SameButIdAndTtl(a, b)
  {
    SameButTtlIff(a.answers, b.answers);
    SameButTtlIff(a.nameServers, b.nameServers);
    SameButTtlIff(a.additionals, b.additionals);
    if Skeleton(a) == Skeleton(b) {
      assert SetTtls(a.answers, 0) == Skeleton(a).answers == SetTtls(b.answers, 0);
      assert SetTtls(a.nameServers, 0) == Skeleton(a).nameServers == SetTtls(b.nameServers, 0);
      assert SetTtls(a.additionals, 0) == Skeleton(a).additionals == SetTtls(b.additionals, 0);
      var blank := Skeleton(a);
      assert a == blank.(id := a.id, answers := a.answers, nameServers := a.nameServers, additionals := a.additionals);
      assert b == blank.(id := b.id, answers := b.answers, nameServers := b.nameServers, additionals := b.additionals);
    }
  }

  lemma SkeletonIgnoresIdAndTtl(m: Message, id: nat, ttl: u32)
    ensures Skeleton(m.(id := id)) == Skeleton(m)
    ensures Skeleton(WithTtl(m, ttl)) == Skeleton(m)
  {
    assert SetTtls(SetTtls(m.answers, ttl), 0) == SetTtls(m.answers, 0);
    assert SetTtls(SetTtls(m.nameServers, ttl), 0) == SetTtls(m.nameServers, 0);
    assert SetTtls(SetTtls(m.additionals, ttl), 0) == SetTtls(m.additionals, 0);
  }
}
