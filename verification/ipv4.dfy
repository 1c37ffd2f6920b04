/**
 * IPv4 address blocks in CIDR prefix notation (section 3.1 of RFC 4632):
 * an address and a prefix length; the block holds the 2^(32 - length)
 * addresses that agree with the address on its first `length` bits.
 */
module Ipv4 {
  import opened Results
  import Decimal
  import Text
  import opened Arith

  /** Number of IPv4 addresses: 2^32. */
  const AddressSpace: nat := 0x1_0000_0000

  type Address = a: nat | a < 0x1_0000_0000
  type PrefixLength = n: nat | n <= 32

  datatype Block = Block(addr: Address, len: PrefixLength)

  /** Number of addresses in the block. */
  function Size(b: Block): nat {
    Pow2(32 - b.len)
  }

  /** A network address: no host bit is set, i.e. the address is a multiple of the block size. */
  predicate Valid(b: Block) {
    IsMultiple(b.addr, Size(b))
  }

  predicate Contains(b: Block, a: nat) {
    b.addr <= a < b.addr + Size(b)
  }

  /** Every address of `c` lies in `p`. */
  predicate Within(c: Block, p: Block) {
    p.addr <= c.addr && c.addr + Size(c) <= p.addr + Size(p)
  }

  /** No address lies in both blocks. */
  predicate Disjoint(x: Block, y: Block) {
    x.addr + Size(x) <= y.addr || y.addr + Size(y) <= x.addr
  }

  /** 2^n for n = 32 is the size of the address space (stated for a variable `n` so that
      the constant is not unfolded wherever the fact is used). */
  lemma Pow2Of32(n: nat)
    requires n == 32
    ensures Pow2(n) == AddressSpace
  {
    assert Pow2(4) == 16;
    Pow2Add(4, 4);
    Pow2Add(8, 8);
    Pow2Add(16, 16);
  }

  /** A valid block fits in the address space. */
  lemma ValidFits(b: Block)
    requires Valid(b)
    ensures b.addr + Size(b) <= AddressSpace
  {
    var h := 32 - b.len;
    var s := Pow2(h);
    var p := Pow2(b.len);
    Pow2Add(h, b.len);
    Pow2Of32(h + b.len);
    assert s * p == AddressSpace;
    var m := MultipleQuotient(b.addr, s);
    QuotientBelow(m, s, p);
    MulMonotone(m + 1, p, s);
    MulSucc(m, s);
  }

  /**
   * The network block of the same prefix length that holds `b`'s address: the
   * address with its host bits cleared.
   */
  function Canonical(b: Block): (c: Block)
    ensures c.len == b.len && Valid(c) && Contains(c, b.addr)
  {
    Block(RoundDown(b.addr, Size(b)), b.len)
  }

  /** A network block is its own canonical form. */
  lemma CanonicalOfValid(b: Block)
    requires Valid(b)
    ensures Canonical(b) == b
  {
    RoundDownUnique(b.addr, Size(b), b.addr);
  }

  /** The canonical form is the only network block of that length holding the address. */
  lemma CanonicalUnique(b: Block, c: Block)
    requires Valid(c) && c.len == b.len && Contains(c, b.addr)
    ensures c == Canonical(b)
  {
    RoundDownUnique(b.addr, Size(b), c.addr);
  }

  /** Some block of the list holds the address. */
  predicate CoveredBy(blocks: seq<Block>, a: nat) {
    exists k :: 0 <= k < |blocks| && Contains(blocks[k], a)
  }

  /** `Within` is containment of address sets, in both directions. */
  lemma WithinMeansSubset(c: Block, p: Block)
    ensures Within(c, p) <==> forall a :: Contains(c, a) ==> Contains(p, a)
  {
    if forall a :: Contains(c, a) ==> Contains(p, a) {
      assert Contains(c, c.addr);
      assert Contains(c, c.addr + Size(c) - 1);
    }
  }

  /** `Disjoint` is emptiness of the address-set intersection, in both directions. */
  lemma DisjointMeansNoCommonAddress(x: Block, y: Block)
    ensures Disjoint(x, y) <==> forall a :: !(Contains(x, a) && Contains(y, a))
  {
    if !Disjoint(x, y) {
      var a := if x.addr <= y.addr then y.addr else x.addr;
      assert Contains(x, a) && Contains(y, a);
    }
  }

  lemma WithinTransitive(a: Block, b: Block, c: Block)
    requires Within(a, b) && Within(b, c)
    ensures Within(a, c)
  {
  }

  lemma DisjointWithin(x: Block, px: Block, y: Block, py: Block)
    requires Within(x, px) && Within(y, py) && Disjoint(px, py)
    ensures Disjoint(x, y)
  {
  }

  // ---- dotted-quad notation ----

  lemma DivMod256(x: nat, y: nat)
    requires y < 256
    ensures (x * 256 + y) / 256 == x && (x * 256 + y) % 256 == y
  {
  }

  function Octets(a: Address): (o: seq<nat>)
    ensures |o| == 4 && forall k :: 0 <= k < 4 ==> o[k] < 256
  {
    var a1 := a / 256;
    var a2 := a1 / 256;
    [a2 / 256, a2 % 256, a1 % 256, a % 256]
  }

  predicate OctetsValid(o: seq<nat>) {
    |o| == 4 && forall k :: 0 <= k < 4 ==> o[k] < 256
  }

  function FromOctets(o: seq<nat>): (a: Address)
    requires OctetsValid(o)
  {
    var a := ((o[0] * 256 + o[1]) * 256 + o[2]) * 256 + o[3];
    assert (o[0] * 256 + o[1]) * 256 + o[2] < 16777216;
    a
  }

  /** Splitting an address into octets and reassembling them is the identity. */
  lemma FromOctetsOfOctets(a: Address)
    ensures FromOctets(Octets(a)) == a
  {
  }

  /** Octets within range reassemble into an address that splits back into them. */
  lemma OctetsOfFromOctets(o: seq<nat>)
    requires OctetsValid(o)
    ensures Octets(FromOctets(o)) == o
  {
    var x2 := o[0] * 256 + o[1];
    var x1 := x2 * 256 + o[2];
    DivMod256(x1, o[3]);
    DivMod256(x2, o[2]);
    DivMod256(o[0], o[1]);
  }

  function QuadStrings(o: seq<nat>): (q: seq<string>)
    requires |o| == 4
    ensures |q| == 4
  {
    [Decimal.NatToString(o[0]), Decimal.NatToString(o[1]),
     Decimal.NatToString(o[2]), Decimal.NatToString(o[3])]
  }

  /** The address in dotted-quad notation, e.g. `10.0.6.32`. */
  function DottedQuad(a: Address): string {
    var o := Octets(a);
    Decimal.NatToString(o[0]) + "." + Decimal.NatToString(o[1]) + "."
      + Decimal.NatToString(o[2]) + "." + Decimal.NatToString(o[3])
  }

  /** The block in CIDR notation, e.g. `10.0.6.32/27`. */
  function Format(b: Block): string {
    DottedQuad(b.addr) + "/" + Decimal.NatToString(b.len)
  }

  /** CIDR notation is the dotted quad and the prefix length joined by `/`, the quad's octets joined by `.`. */
  lemma FormatIsJoin(b: Block)
    ensures DottedQuad(b.addr) == Text.Join(QuadStrings(Octets(b.addr)), '.')
    ensures Format(b) == Text.Join([DottedQuad(b.addr), Decimal.NatToString(b.len)], '/')
  {
    Text.JoinFour(QuadStrings(Octets(b.addr)), '.');
    Text.JoinTwo([DottedQuad(b.addr), Decimal.NatToString(b.len)], '/');
  }

  /** Reads one octet: a canonical decimal number below 256. */
  function ParseOctet(s: string): (r: Option<nat>)
    ensures r.Some? ==> r.value < 256
  {
    match Decimal.ParseNat(s)
    case Some(n) => if n < 256 then Some(n) else None
    case None => None
  }

  function ParseQuad(q: seq<string>): (r: Option<seq<nat>>)
    requires |q| == 4
    ensures r.Some? ==> OctetsValid(r.value)
  {
    match (ParseOctet(q[0]), ParseOctet(q[1]), ParseOctet(q[2]), ParseOctet(q[3]))
    case (Some(o0), Some(o1), Some(o2), Some(o3)) => Some([o0, o1, o2, o3])
    case _ => None
  }

  /** Reads CIDR notation `a.b.c.d/n`; malformed text gives `None`. */
  function Parse(s: string): (r: Option<Block>) {
    var parts := Text.Split(s, '/');
    if |parts| != 2 then None
    else
      var quads := Text.Split(parts[0], '.');
      if |quads| != 4 then None
      else match (ParseQuad(quads), Decimal.ParseNat(parts[1]))
        case (Some(o), Some(n)) => if n <= 32 then Some(Block(FromOctets(o), n)) else None
        case _ => None
  }

  lemma CanonicalFreeOf(s: string, c: char)
    requires Decimal.IsCanonical(s) && !Decimal.IsDigit(c)
    ensures c !in s
  {
  }

  /** Printing a block and reading it back yields the same block. */
  lemma ParseFormat(b: Block)
    ensures Parse(Format(b)) == Some(b)
  {
    var o := Octets(b.addr);
    var q := QuadStrings(o);
    var lenStr := Decimal.NatToString(b.len);
    forall k | 0 <= k < 4 ensures '.' !in q[k] && '/' !in q[k] {
      CanonicalFreeOf(q[k], '.');
      CanonicalFreeOf(q[k], '/');
    }
    CanonicalFreeOf(lenStr, '/');
    var dotted := Text.Join(q, '.');
    FormatIsJoin(b);
    Text.JoinFreeOf(q, '.', '/');
    Text.SplitJoin([dotted, lenStr], '/');
    Text.SplitJoin(q, '.');
    forall k | 0 <= k < 4 ensures ParseOctet(q[k]) == Some(o[k]) {
      Decimal.ParseNatToString(o[k]);
    }
    Decimal.ParseNatToString(b.len);
    FromOctetsOfOctets(b.addr);
  }

  /** Whatever `Parse` accepts is already in canonical form: printing it back gives the input. */
  lemma FormatParse(s: string, b: Block)
    requires Parse(s) == Some(b)
    ensures Format(b) == s
  {
    var parts := Text.Split(s, '/');
    var quads := Text.Split(parts[0], '.');
    var o := ParseQuad(quads).value;
    assert b == Block(FromOctets(o), b.len);
    OctetsOfFromOctets(o);
    forall k | 0 <= k < 4 ensures Decimal.NatToString(o[k]) == quads[k] {
      Decimal.NatToStringOfParse(quads[k], o[k]);
    }
    assert QuadStrings(Octets(b.addr)) == quads;
    Decimal.NatToStringOfParse(parts[1], b.len);
    Text.JoinSplit(parts[0], '.');
    Text.JoinSplit(s, '/');
    assert parts == [parts[0], parts[1]];
    FormatIsJoin(b);
  }
}
