/**
 * The subnet address plan of src/vpc_product.ts.  Three independently
 * deployed stacks re-derive their subnets from the same VPC block; they agree
 * only through these fixed index conventions:
 *  - private subnets: children 0..2 of an 8-way split into /24s (8 host bits),
 *  - public subnets:  children 3..5 of the same split,
 *  - transit-gateway subnets: children 0..2 of an 8-way split into /27s
 *    (5 host bits) of child 6.
 */
module AddressPlan {
  import opened Results
  import opened Arith
  import opened Ipv4
  import opened Intrinsics

  const VpcSplitCount: nat := 8
  const VpcSplitHostBits: nat := 8
  const TgwSegmentIndex: nat := 6
  const TgwSplitCount: nat := 8
  const TgwSplitHostBits: nat := 5

  /** The loop variable `i` of `for (let i = 1; i < 4; i++)`: one per availability zone. */
  type AzIndex = i: nat | 1 <= i <= 3 witness 1

  datatype Tier = Private | Public | TransitGateway

  /** Index of the private subnet of zone `i` in the VPC split. */
  function PrivateIndex(i: AzIndex): (k: nat)
    ensures k < 3
  {
    i - 1
  }

  /** Index of the public subnet of zone `i` in the VPC split. */
  function PublicIndex(i: AzIndex): (k: nat)
    ensures 3 <= k < 6
  {
    i + 2
  }

  /** Index of the transit-gateway subnet of zone `i` in the split of the reserved segment.
      The attachment stack writes it as `i - 1` (src/vpc_product.ts:164), the same
      expression the base stack uses for the private subnets, so it is defined as that index. */
  function TgwIndex(i: AzIndex): (k: nat)
    ensures k < 3
  {
    PrivateIndex(i)
  }

  /** `Fn.select(index, Fn.cidr(parent, count, hostBits))`. */
  function SelectChild(parent: Block, count: nat, hostBits: nat, index: nat): (r: Result<Block, CidrError>)
    ensures r.Success? <==> CidrFits(parent, count, hostBits) && index < count
    ensures r.Success? ==> r.value == Children(parent, count, hostBits)[index]
  {
    match Cidr(parent, count, hostBits)
    case Failure(e) => Failure(e)
    case Success(cs) => Select(index, cs)
  }

  /** Eight /24s fit exactly when the VPC is a network block of prefix /21 or shorter. */
  lemma VpcSplitFits(vpc: Block)
    ensures CidrFits(vpc, VpcSplitCount, VpcSplitHostBits) <==> Valid(vpc) && vpc.len <= 21
  {
    assert Pow2(8) == 256;
    Pow2Add(3, 8);
    assert VpcSplitCount * Pow2(VpcSplitHostBits) == Pow2(11);
    Pow2Below(11, 32 - vpc.len);
    if vpc.len <= 21 {
      Pow2Monotone(11, 32 - vpc.len);
    }
  }

  /** The k-th /24 of the VPC split, whenever the split fits. */
  lemma VpcChild(vpc: Block, k: nat)
    requires k < VpcSplitCount
    ensures CidrFits(vpc, VpcSplitCount, VpcSplitHostBits) ==>
      var c := Children(vpc, VpcSplitCount, VpcSplitHostBits)[k];
      c.addr == vpc.addr + k * 256 && c.len == 24 && Valid(c) && Within(c, vpc)
  {
    if CidrFits(vpc, VpcSplitCount, VpcSplitHostBits) {
      assert Pow2(8) == 256;
      ChildAt(vpc, VpcSplitCount, VpcSplitHostBits, k);
      CidrChildrenWithin(vpc, VpcSplitCount, VpcSplitHostBits);
    }
  }

  /** `Fn.select(k, Fn.cidr(vpc, 8, '8'))`: the k-th /24 of the VPC. */
  function VpcSubnet(vpc: Block, k: nat): (r: Result<Block, CidrError>)
    requires k < VpcSplitCount
    ensures r.Success? <==> Valid(vpc) && vpc.len <= 21
    ensures r.Success? ==> r.value.addr == vpc.addr + k * 256 && r.value.len == 24
    ensures r.Success? ==> Valid(r.value) && Within(r.value, vpc)
  {
    VpcSplitFits(vpc);
    VpcChild(vpc, k);
    SelectChild(vpc, VpcSplitCount, VpcSplitHostBits, k)
  }

  /** The private subnet of zone `i` (BaseVPCStack). */
  function PrivateSubnetCidr(vpc: Block, i: AzIndex): (r: Result<Block, CidrError>)
    ensures r.Success? <==> Valid(vpc) && vpc.len <= 21
    ensures r.Success? ==> r.value.addr == vpc.addr + (i - 1) * 256 && r.value.len == 24
  {
    VpcSubnet(vpc, PrivateIndex(i))
  }

  /** The public subnet of zone `i` (PublicSubnetStack). */
  function PublicSubnetCidr(vpc: Block, i: AzIndex): (r: Result<Block, CidrError>)
    ensures r.Success? <==> Valid(vpc) && vpc.len <= 21
    ensures r.Success? ==> r.value.addr == vpc.addr + (i + 2) * 256 && r.value.len == 24
  {
    VpcSubnet(vpc, PublicIndex(i))
  }

  /** The /24 reserved for transit-gateway subnets: child 6 of the VPC split. */
  function TgwSegmentCidr(vpc: Block): (r: Result<Block, CidrError>)
    ensures r.Success? <==> Valid(vpc) && vpc.len <= 21
    ensures r.Success? ==> r.value.addr == vpc.addr + 1536 && r.value.len == 24
  {
    VpcSubnet(vpc, TgwSegmentIndex)
  }

  /** Eight /27s exactly fill a /24 network block. */
  lemma TgwSplitFits(seg: Block)
    requires Valid(seg) && seg.len == 24
    ensures CidrFits(seg, TgwSplitCount, TgwSplitHostBits)
    ensures TgwSplitCount * Pow2(TgwSplitHostBits) == Size(seg)
  {
    assert Pow2(5) == 32;
    assert Size(seg) == Pow2(8) == 256;
  }

  /** The k-th /27 of a /24 segment. */
  lemma TgwChild(seg: Block, k: nat)
    requires Valid(seg) && seg.len == 24 && k < TgwSplitCount
    ensures CidrFits(seg, TgwSplitCount, TgwSplitHostBits)
    ensures
      var c := Children(seg, TgwSplitCount, TgwSplitHostBits)[k];
      c.addr == seg.addr + k * 32 && c.len == 27 && Valid(c) && Within(c, seg)
  {
    TgwSplitFits(seg);
    assert Pow2(5) == 32;
    ChildAt(seg, TgwSplitCount, TgwSplitHostBits, k);
    CidrChildrenWithin(seg, TgwSplitCount, TgwSplitHostBits);
  }

  /** The transit-gateway subnet of zone `i` (TGWAttachment). */
  function TgwSubnetCidr(vpc: Block, i: AzIndex): (r: Result<Block, CidrError>)
    ensures r.Success? <==> Valid(vpc) && vpc.len <= 21
    ensures r.Success? ==> r.value.addr == vpc.addr + 1536 + (i - 1) * 32 && r.value.len == 27
  {
    match TgwSegmentCidr(vpc)
    case Failure(e) => Failure(e)
    case Success(seg) =>
      VpcChild(vpc, TgwSegmentIndex);
      TgwChild(seg, TgwIndex(i));
      SelectChild(seg, TgwSplitCount, TgwSplitHostBits, TgwIndex(i))
  }

  /** The subnet of a tier in zone `i`. */
  function SubnetCidr(vpc: Block, t: Tier, i: AzIndex): (r: Result<Block, CidrError>)
    ensures r.Success? <==> Valid(vpc) && vpc.len <= 21
  {
    match t
    case Private => PrivateSubnetCidr(vpc, i)
    case Public => PublicSubnetCidr(vpc, i)
    case TransitGateway => TgwSubnetCidr(vpc, i)
  }

  /** The eight /27s of the reserved segment tile it: every address of the segment is in one of them. */
  lemma TgwSegmentTiled(vpc: Block)
    requires Valid(vpc) && vpc.len <= 21
    ensures
      var seg := TgwSegmentCidr(vpc).value;
      Cidr(seg, TgwSplitCount, TgwSplitHostBits).Success? &&
      forall a: nat :: (CoveredBy(Cidr(seg, TgwSplitCount, TgwSplitHostBits).value, a) <==> Contains(seg, a))
  {
    var seg := TgwSegmentCidr(vpc).value;
    VpcChild(vpc, TgwSegmentIndex);
    TgwSplitFits(seg);
    CidrTiles(seg, TgwSplitCount, TgwSplitHostBits);
  }

  /** Every subnet of the plan is a network block inside the VPC. */
  lemma SubnetWithinVpc(vpc: Block, t: Tier, i: AzIndex)
    requires Valid(vpc) && vpc.len <= 21
    ensures Valid(SubnetCidr(vpc, t, i).value) && Within(SubnetCidr(vpc, t, i).value, vpc)
  {
    match t
    case Private => VpcChild(vpc, PrivateIndex(i));
    case Public => VpcChild(vpc, PublicIndex(i));
    case TransitGateway =>
      var seg := TgwSegmentCidr(vpc).value;
      VpcChild(vpc, TgwSegmentIndex);
      TgwChild(seg, TgwIndex(i));
      WithinTransitive(SubnetCidr(vpc, t, i).value, seg, vpc);
  }

  /** Where a subnet sits in the VPC split: its /24 index (6 for the transit-gateway tier). */
  function SplitIndex(t: Tier, i: AzIndex): (k: nat)
    ensures k < VpcSplitCount
  {
    match t
    case Private => PrivateIndex(i)
    case Public => PublicIndex(i)
    case TransitGateway => TgwSegmentIndex
  }

  /** Each subnet lies in the /24 of its split index. */
  lemma SubnetInSplitChild(vpc: Block, t: Tier, i: AzIndex)
    requires Valid(vpc) && vpc.len <= 21
    ensures Within(SubnetCidr(vpc, t, i).value, VpcSubnet(vpc, SplitIndex(t, i)).value)
  {
    if t == TransitGateway {
      TgwChild(TgwSegmentCidr(vpc).value, TgwIndex(i));
    }
  }

  /** The nine subnets (three tiers, three zones) are pairwise disjoint. */
  lemma SubnetsDisjoint(vpc: Block, t1: Tier, i1: AzIndex, t2: Tier, i2: AzIndex)
    requires Valid(vpc) && vpc.len <= 21
    requires t1 != t2 || i1 != i2
    ensures Disjoint(SubnetCidr(vpc, t1, i1).value, SubnetCidr(vpc, t2, i2).value)
  {
    var b1 := SubnetCidr(vpc, t1, i1).value;
    var b2 := SubnetCidr(vpc, t2, i2).value;
    var k1 := SplitIndex(t1, i1);
    var k2 := SplitIndex(t2, i2);
    VpcSplitFits(vpc);
    var cs := Children(vpc, VpcSplitCount, VpcSplitHostBits);
    if k1 != k2 {
      CidrChildrenDisjoint(vpc, VpcSplitCount, VpcSplitHostBits);
      SubnetInSplitChild(vpc, t1, i1);
      SubnetInSplitChild(vpc, t2, i2);
      if k1 < k2 {
        DisjointWithin(b1, cs[k1], b2, cs[k2]);
      } else {
        DisjointWithin(b2, cs[k2], b1, cs[k1]);
        assert Disjoint(b2, b1);
      }
    } else {
      assert t1 == TransitGateway && t2 == TransitGateway;
      var seg := TgwSegmentCidr(vpc).value;
      VpcChild(vpc, TgwSegmentIndex);
      TgwSplitFits(seg);
      CidrChildrenDisjoint(seg, TgwSplitCount, TgwSplitHostBits);
      var j1 := TgwIndex(i1);
      var j2 := TgwIndex(i2);
      if j1 > j2 {
        assert Disjoint(b2, b1);
      }
    }
  }

  /** Splitting twice agrees with splitting once: the transit-gateway subnet of zone `i` is
      also child 48 + (i - 1) of a direct split of the VPC into sixty-four /27s. */
  lemma TgwSubnetDirect(vpc: Block, i: AzIndex)
    ensures SelectChild(vpc, 64, TgwSplitHostBits, TgwSegmentIndex * TgwSplitCount + TgwIndex(i))
      == TgwSubnetCidr(vpc, i)
  {
    VpcSplitFits(vpc);
    assert Pow2(5) == 32;
    assert Pow2(8) == 256;
    assert 64 * Pow2(TgwSplitHostBits) == VpcSplitCount * Pow2(VpcSplitHostBits);
    var k := TgwSegmentIndex * TgwSplitCount + TgwIndex(i);
    if CidrFits(vpc, 64, TgwSplitHostBits) {
      ChildAt(vpc, 64, TgwSplitHostBits, k);
    }
  }
}
