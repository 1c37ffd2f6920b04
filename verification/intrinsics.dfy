/**
 * The two CloudFormation intrinsic functions the address plan is built from,
 * by their documented behaviour:
 *  - `Fn::Cidr [block, count, cidrBits]` lists `count` consecutive child blocks
 *    of `cidrBits` host bits each (so cidrBits 8 gives /24 children), starting
 *    at the block's network address; `count` must lie in 1..256 and the
 *    children must fit in the block;
 *  - `Fn::Select [index, list]` picks one element and fails past the end.
 */
module Intrinsics {
  import opened Results
  import opened Arith
  import opened Ipv4

  datatype CidrError =
    | MalformedBlock      // the block's address has host bits set
    | CountOutOfRange     // count outside 1..256
    | InsufficientSpace   // count * 2^cidrBits exceeds the block
    | IndexOutOfRange     // Fn::Select past the end of the list

  const MaxCidrCount: nat := 256

  /** When `count` children of `hostBits` host bits fit in `parent`. */
  predicate CidrFits(parent: Block, count: nat, hostBits: nat) {
    Valid(parent) && 1 <= count <= MaxCidrCount && count * Pow2(hostBits) <= Size(parent)
  }

  /** A child never has more host bits than its parent. */
  lemma ChildHostBits(parent: Block, hostBits: nat)
    requires Pow2(hostBits) <= Size(parent)
    ensures hostBits <= 32 - parent.len
  {
    Pow2Below(hostBits, 32 - parent.len);
  }

  /** The `k`-th child of `hostBits` host bits is a block of the address space. */
  lemma ChildFits(parent: Block, k: nat, hostBits: nat)
    requires Valid(parent) && (k + 1) * Pow2(hostBits) <= Size(parent)
    ensures hostBits <= 32 - parent.len
    ensures k * Pow2(hostBits) >= 0
    ensures parent.addr + k * Pow2(hostBits) + Pow2(hostBits) <= AddressSpace
  {
    var p := Pow2(hostBits);
    MulNonNegative(k, p);
    MulSucc(k, p);
    ChildHostBits(parent, hostBits);
    ValidFits(parent);
  }

  /** The `k`-th child: `hostBits` host bits, `k` blocks of that size past the parent's address. */
  function Child(parent: Block, k: nat, hostBits: nat): (c: Block)
    requires Valid(parent) && (k + 1) * Pow2(hostBits) <= Size(parent)
    ensures c.len == 32 - hostBits && Size(c) == Pow2(hostBits)
    ensures parent.addr <= c.addr && c.addr + Size(c) == parent.addr + (k + 1) * Pow2(hostBits)
  {
    MulSucc(k, Pow2(hostBits));
    ChildFits(parent, k, hostBits);
    Block(parent.addr + k * Pow2(hostBits), 32 - hostBits)
  }

  lemma IndexFits(parent: Block, count: nat, hostBits: nat, k: nat)
    requires CidrFits(parent, count, hostBits) && k < count
    ensures (k + 1) * Pow2(hostBits) <= Size(parent)
  {
    MulMonotone(k + 1, count, Pow2(hostBits));
  }

  /** The children listed by a split that fits. */
  function Children(parent: Block, count: nat, hostBits: nat): (cs: seq<Block>)
    requires CidrFits(parent, count, hostBits)
    ensures |cs| == count
  {
    seq(count, k requires 0 <= k < count =>
      IndexFits(parent, count, hostBits, k);
      Child(parent, k, hostBits))
  }

  lemma ChildAt(parent: Block, count: nat, hostBits: nat, k: nat)
    requires CidrFits(parent, count, hostBits) && k < count
    ensures (k + 1) * Pow2(hostBits) <= Size(parent)
    ensures Children(parent, count, hostBits)[k] == Child(parent, k, hostBits)
  {
    IndexFits(parent, count, hostBits, k);
  }

  function Cidr(parent: Block, count: nat, hostBits: nat): (r: Result<seq<Block>, CidrError>)
    ensures r.Success? <==> CidrFits(parent, count, hostBits)
    ensures r.Success? ==> r.value == Children(parent, count, hostBits)
  {
    if !Valid(parent) then Failure(MalformedBlock)
    else if count < 1 || count > MaxCidrCount then Failure(CountOutOfRange)
    else if count * Pow2(hostBits) > Size(parent) then Failure(InsufficientSpace)
    else Success(Children(parent, count, hostBits))
  }

  function Select<T>(index: nat, xs: seq<T>): (r: Result<T, CidrError>)
    ensures r.Success? <==> index < |xs|
    ensures r.Success? ==> r.value == xs[index]
  {
    if index < |xs| then Success(xs[index]) else Failure(IndexOutOfRange)
  }

  // ---- properties of the split ----

  /** A child that fits is an aligned block inside its parent. */
  lemma ChildValidWithin(parent: Block, k: nat, hostBits: nat)
    requires Valid(parent) && (k + 1) * Pow2(hostBits) <= Size(parent)
    ensures Valid(Child(parent, k, hostBits)) && Within(Child(parent, k, hostBits), parent)
  {
    var s := Pow2(hostBits);
    ChildFits(parent, k, hostBits);
    var extra := 32 - parent.len - hostBits;
    Pow2Add(extra, hostBits);
    var q := MultipleQuotient(parent.addr, Size(parent));
    AlignedOffset(parent.addr, q, Pow2(extra), s, k);
    MulSucc(k, s);
  }

  /** The `k`-th child occupies the `k`-th slot of `2^hostBits` addresses, below `count` slots. */
  lemma ChildInSlots(parent: Block, count: nat, hostBits: nat, k: nat)
    requires CidrFits(parent, count, hostBits) && k < count
    ensures (k + 1) * Pow2(hostBits) <= Size(parent)
    ensures parent.addr <= Child(parent, k, hostBits).addr
    ensures Child(parent, k, hostBits).addr + Pow2(hostBits) <= parent.addr + count * Pow2(hostBits)
  {
    IndexFits(parent, count, hostBits, k);
    SlotBound(k, count, Pow2(hostBits));
  }

  /** Each child is a well-formed network block of `32 - hostBits` prefix bits inside the parent. */
  lemma CidrChildrenWithin(parent: Block, count: nat, hostBits: nat)
    requires Cidr(parent, count, hostBits).Success?
    ensures forall k :: 0 <= k < count ==>
      var c := Cidr(parent, count, hostBits).value[k];
      Valid(c) && c.len == 32 - hostBits && Within(c, parent)
  {
    var r := Cidr(parent, count, hostBits).value;
    forall k | 0 <= k < count
      ensures Valid(r[k]) && r[k].len == 32 - hostBits && Within(r[k], parent)
    {
      IndexFits(parent, count, hostBits, k);
      ChildValidWithin(parent, k, hostBits);
    }
  }

  /** Distinct children never share an address. */
  lemma {:induction false} CidrChildrenDisjoint(parent: Block, count: nat, hostBits: nat)
    requires Cidr(parent, count, hostBits).Success?
    ensures forall j, k :: 0 <= j < k < count ==>
      Disjoint(Cidr(parent, count, hostBits).value[j], Cidr(parent, count, hostBits).value[k])
  {
    var r := Cidr(parent, count, hostBits).value;
    var s := Pow2(hostBits);
    ChildHostBits(parent, hostBits);
    forall j, k | 0 <= j < k < count ensures Disjoint(r[j], r[k]) {
      MulMonotone(j + 1, k, s);
    }
  }

  /** An address in the first `count` child-sized slots of the parent lies in the child of its slot. */
  lemma SlotOfAddress(parent: Block, count: nat, hostBits: nat, a: nat) returns (k: nat)
    requires CidrFits(parent, count, hostBits)
    requires parent.addr <= a < parent.addr + count * Pow2(hostBits)
    ensures k < count && Contains(Child(parent, k, hostBits), a)
  {
    var s := Pow2(hostBits);
    k := FloorQuotient(a - parent.addr, s);
    if count <= k {
      MulMonotone(count, k, s);
    }
    IndexFits(parent, count, hostBits, k);
    ChildFits(parent, k, hostBits);
  }

  /** The children cover exactly the first `count * 2^hostBits` addresses of the parent. */
  lemma CidrCovers(parent: Block, count: nat, hostBits: nat)
    requires Cidr(parent, count, hostBits).Success?
    ensures forall a: nat :: (CoveredBy(Cidr(parent, count, hostBits).value, a)
      <==> parent.addr <= a < parent.addr + count * Pow2(hostBits))
  {
    var r := Cidr(parent, count, hostBits).value;
    var s := Pow2(hostBits);
    forall a: nat
      ensures CoveredBy(r, a) <==> parent.addr <= a < parent.addr + count * s
    {
      if CoveredBy(r, a) {
        var k :| 0 <= k < count && Contains(r[k], a);
        ChildInSlots(parent, count, hostBits, k);
        ChildFits(parent, k, hostBits);
      }
      if parent.addr <= a < parent.addr + count * s {
        var k := SlotOfAddress(parent, count, hostBits, a);
        assert Contains(r[k], a);
      }
    }
  }

  /** When the children exhaust the parent they tile it: together they hold exactly the parent's addresses. */
  lemma CidrTiles(parent: Block, count: nat, hostBits: nat)
    requires Cidr(parent, count, hostBits).Success?
    requires count * Pow2(hostBits) == Size(parent)
    ensures forall a: nat :: CoveredBy(Cidr(parent, count, hostBits).value, a) <==> Contains(parent, a)
  {
    CidrCovers(parent, count, hostBits);
  }
}
