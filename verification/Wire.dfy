/** Bytes, process memory, and the header that LM-INET puts before every message:
    the requester's own `inet_request` structure, copied out as it lies in memory
    (little endian, eight-byte pointers). */
module Wire {

  type byte = b: int | 0 <= b < 256

  datatype Option<+T> = None | Some(value: T)

  // ---------------------------------------------------------------- memory

  /** The `n` bytes at address `a`; nothing when the range leaves the modelled memory. */
  function Load(mem: seq<byte>, a: nat, n: nat): seq<byte> {
    if a + n <= |mem| then mem[a..a + n] else []
  }

  /** Overwrites memory from address `a` on; a range that leaves the modelled memory changes nothing in it. */
  function Store(mem: seq<byte>, a: nat, data: seq<byte>): (r: seq<byte>)
    ensures |r| == |mem|
  {
    if a + |data| <= |mem| then mem[..a] + data + mem[a + |data|..] else mem
  }

  predicate Apart(a: nat, n: nat, b: nat, m: nat) {
    a + n <= b || b + m <= a || n == 0 || m == 0
  }

  lemma LoadStoreApart(mem: seq<byte>, a: nat, data: seq<byte>, b: nat, m: nat)
    requires Apart(a, |data|, b, m)
    ensures Load(Store(mem, a, data), b, m) == Load(mem, b, m)
  {
    if data == [] {
      assert Store(mem, a, data) == mem;
    }
  }

  /** Extending a loaded prefix: storing the next chunk behind it makes a longer prefix. */
  lemma LoadStoreNext(mem: seq<byte>, a: nat, done: nat, data: seq<byte>)
    requires a + done + |data| <= |mem|
    ensures Load(Store(mem, a + done, data), a, done + |data|) == Load(mem, a, done) + data
  {
  }

  lemma StoreNothing(mem: seq<byte>, a: nat)
    ensures Store(mem, a, []) == mem
  {
    if a <= |mem| {
      assert mem[..a] + [] + mem[a..] == mem;
    }
  }

  lemma LoadNone(mem: seq<byte>, a: nat)
    ensures Load(mem, a, 0) == []
  {
  }

  /** Two stores behind each other are one. */
  lemma StoreJoin(mem: seq<byte>, a: nat, x: seq<byte>, y: seq<byte>)
    requires a + |x| + |y| <= |mem|
    ensures Store(Store(mem, a, x), a + |x|, y) == Store(mem, a, x + y)
  {
  }

  lemma LoadSplit(mem: seq<byte>, a: nat, m: nat, n: nat)
    requires a + m + n <= |mem|
    ensures Load(mem, a, m) + Load(mem, a + m, n) == Load(mem, a, m + n)
  {
  }

  // ---------------------------------------------------------------- integers

  function Pow256(n: nat): (r: nat)
    ensures r > 0
  {
    if n == 0 then 1 else 256 * Pow256(n - 1)
  }

  /** The `n` low bytes of `v`, least significant first. */
  function Le(v: nat, n: nat): (s: seq<byte>)
    ensures |s| == n
  {
    if n == 0 then [] else [v % 256] + Le(v / 256, n - 1)
  }

  function FromLe(s: seq<byte>): nat {
    if s == [] then 0 else s[0] + 256 * FromLe(s[1..])
  }

  lemma {:induction false} LeRoundTrip(v: nat, n: nat)
    requires v < Pow256(n)
    ensures FromLe(Le(v, n)) == v
  {
    if n > 0 {
      LeRoundTrip(v / 256, n - 1);
      assert Le(v, n)[1..] == Le(v / 256, n - 1);
    }
  }

  /** The digits of a number, least significant first. */
  lemma {:induction false} LeDigit(v: nat, n: nat, i: nat)
    requires i < n
    ensures Le(v, n)[i] == (v / Pow256(i)) % 256
    decreases n
  {
    if i > 0 {
      LeDigit(v / 256, n - 1, i - 1);
      DivDiv(v, Pow256(i - 1));
    }
  }

  lemma DivDiv(v: nat, p: nat)
    requires p > 0
    ensures v / 256 / p == v / (256 * p)
  {
    var a := v / 256;
    var q, r := a / p, a % p;
    assert a == p * q + r && v == 256 * a + v % 256;
    Quotient(v, 256 * p, q, 256 * r + v % 256);
  }

  lemma Quotient(v: nat, m: nat, q: nat, r: nat)
    requires v == m * q + r && r < m
    ensures v / m == q
  {
    var d, e := v / m, v % m;
    assert v == m * d + e;
    if d < q {
      TimesLeq(m, d + 1, q);
    } else if q < d {
      TimesLeq(m, q + 1, d);
    }
  }

  lemma TimesLeq(m: nat, x: nat, y: nat)
    requires x <= y
    ensures m * x <= m * y
  {
  }

  lemma Pow256Values()
    ensures Pow256(4) == 0x1_0000_0000
    ensures Pow256(8) == 0x1_0000_0000_0000_0000
  {
    assert Pow256(2) == 65536;
    assert Pow256(3) == 16777216;
    assert Pow256(4) == 0x1_0000_0000;
    assert Pow256(6) == 65536 * Pow256(4);
    assert Pow256(8) == 65536 * Pow256(6);
  }

  // ---------------------------------------------------------------- requests

  /** Codes 0 to 3 of `inet_request_type`; the remaining codes have no handler. */
  datatype Kind = Send | Recv | RemRd | RemWr | Other(code: nat)

  const PENDING: nat := 0x10
  const SUCCESS: nat := 0x11
  const FAIL: nat := 0x12

  datatype Request = Request(
    id: nat, context: nat, kind: Kind, status: nat, addr: nat, remAddr: nat, length: nat)

  const U64: nat := 0x1_0000_0000_0000_0000
  const U32: nat := 0x1_0000_0000

  function Code(k: Kind): nat {
    match k
    case Send => 0
    case Recv => 1
    case RemRd => 2
    case RemWr => 3
    case Other(c) => c
  }

  function KindOf(c: nat): Kind {
    if c == 0 then Send else if c == 1 then Recv else if c == 2 then RemRd else if c == 3 then RemWr else Other(c)
  }

  /** The fields have the widths of the C structure. */
  predicate Representable(r: Request) {
    && r.id < U64 && r.context < U64 && r.status < U32
    && r.addr < U64 && r.remAddr < U64 && r.length < U64
    && (r.kind.Other? ==> 4 <= r.kind.code < U32)
  }

  /** sizeof(inet_request) */
  const HEADER: nat := 48

  function Encode(r: Request): (s: seq<byte>)
    ensures |s| == HEADER
  {
    Le(r.id, 8) + Le(r.context, 8) + Le(Code(r.kind), 4) + Le(r.status, 4)
    + Le(r.addr, 8) + Le(r.remAddr, 8) + Le(r.length, 8)
  }

  function Decode(s: seq<byte>): Request
    requires |s| == HEADER
  {
    Request(FromLe(s[..8]), FromLe(s[8..16]), KindOf(FromLe(s[16..20])), FromLe(s[20..24]),
            FromLe(s[24..32]), FromLe(s[32..40]), FromLe(s[40..]))
  }

  /** The seven fields can be cut out of the header again. */
  lemma Fields(a: seq<byte>, b: seq<byte>, c: seq<byte>, d: seq<byte>, e: seq<byte>, f: seq<byte>, g: seq<byte>)
    requires |a| == |b| == |e| == |f| == |g| == 8 && |c| == |d| == 4
    ensures var s := a + b + c + d + e + f + g;
            && |s| == HEADER && s[..8] == a && s[8..16] == b && s[16..20] == c && s[20..24] == d
            && s[24..32] == e && s[32..40] == f && s[40..] == g
  {
  }

  /** A peer that received the whole header sees the requester's request. */
  lemma DecodeEncode(r: Request)
    requires Representable(r)
    ensures Decode(Encode(r)) == r
  {
    Pow256Values();
    Fields(Le(r.id, 8), Le(r.context, 8), Le(Code(r.kind), 4), Le(r.status, 4),
           Le(r.addr, 8), Le(r.remAddr, 8), Le(r.length, 8));
    LeRoundTrip(r.id, 8);
    LeRoundTrip(r.context, 8);
    LeRoundTrip(Code(r.kind), 4);
    LeRoundTrip(r.status, 4);
    LeRoundTrip(r.addr, 8);
    LeRoundTrip(r.remAddr, 8);
    LeRoundTrip(r.length, 8);
  }

  /** The layout of the header: offsets and widths of the C structure, and the codes of the four kinds. */
  lemma HeaderLayout(r: Request)
    requires Representable(r)
    ensures var e := Encode(r);
            && |e| == 48
            && FromLe(e[0..8]) == r.id && FromLe(e[8..16]) == r.context && FromLe(e[20..24]) == r.status
            && FromLe(e[24..32]) == r.addr && FromLe(e[32..40]) == r.remAddr && FromLe(e[40..48]) == r.length
            && (r.kind == Send ==> FromLe(e[16..20]) == 0) && (r.kind == Recv ==> FromLe(e[16..20]) == 1)
            && (r.kind == RemRd ==> FromLe(e[16..20]) == 2) && (r.kind == RemWr ==> FromLe(e[16..20]) == 3)
  {
    Pow256Values();
    Fields(Le(r.id, 8), Le(r.context, 8), Le(Code(r.kind), 4), Le(r.status, 4),
           Le(r.addr, 8), Le(r.remAddr, 8), Le(r.length, 8));
    LeRoundTrip(r.id, 8);
    LeRoundTrip(r.context, 8);
    LeRoundTrip(Code(r.kind), 4);
    LeRoundTrip(r.status, 4);
    LeRoundTrip(r.addr, 8);
    LeRoundTrip(r.remAddr, 8);
    LeRoundTrip(r.length, 8);
    var e := Encode(r);
    assert e[0..8] == e[..8] && e[40..48] == e[40..];
  }
}
