/**
 * The configuration the repository ships (src/configuration.ts), run through
 * the model: the address plan it yields, the catalog it offers and the share
 * it declares.
 */
module Shipped {
  import opened Results
  import opened Arith
  import opened Ipv4
  import opened AddressPlan
  import opened Configuration
  import VpcProduct
  import ServiceCatalog
  import TestEnv

  /** 10.0.0.0/20 */
  const ShippedBlock := Block(167772160, 20)

  lemma ShippedBlockValid()
    ensures Valid(ShippedBlock)
  {
    assert Pow2(12) == 4096;
    IsMultipleMeansModZero(167772160, 4096);
  }

  lemma ShippedVpcText()
    ensures Parse(ShippedVpc.vpcCidr) == Some(ShippedBlock)
  {
    assert Format(ShippedBlock) == "10.0.0.0/20";
    ParseFormat(ShippedBlock);
  }

  /** The shipped VPC block reads as 10.0.0.0/20, a network block the base stack accepts unchanged. */
  lemma ShippedVpcParses(region: string)
    ensures Parse(ShippedVpc.vpcCidr) == Some(ShippedBlock)
    ensures VpcProduct.BaseVpcStack(ShippedVpc, region).Success?
    ensures VpcProduct.BaseVpcStack(ShippedVpc, region).value.vpcCidr == ShippedBlock
  {
    ShippedVpcText();
    ShippedBlockValid();
    CanonicalOfValid(ShippedBlock);
  }

  /** The nine subnet blocks of the shipped VPC. */
  lemma ShippedSubnetBlocks()
    ensures Valid(ShippedBlock)
    ensures SubnetCidr(ShippedBlock, Private, 1).value == Block(167772160, 24)
    ensures SubnetCidr(ShippedBlock, Private, 2).value == Block(167772416, 24)
    ensures SubnetCidr(ShippedBlock, Private, 3).value == Block(167772672, 24)
    ensures SubnetCidr(ShippedBlock, Public, 1).value == Block(167772928, 24)
    ensures SubnetCidr(ShippedBlock, Public, 2).value == Block(167773184, 24)
    ensures SubnetCidr(ShippedBlock, Public, 3).value == Block(167773440, 24)
    ensures SubnetCidr(ShippedBlock, TransitGateway, 1).value == Block(167773696, 27)
    ensures SubnetCidr(ShippedBlock, TransitGateway, 2).value == Block(167773728, 27)
    ensures SubnetCidr(ShippedBlock, TransitGateway, 3).value == Block(167773760, 27)
  {
    ShippedBlockValid();
  }

  // CIDR notation of the nine blocks, one computation each.

  lemma PrivateText1()
    ensures Format(Block(167772160, 24)) == "10.0.0.0/24"
  {
  }

  lemma PrivateText2()
    ensures Format(Block(167772416, 24)) == "10.0.1.0/24"
  {
  }

  lemma PrivateText3()
    ensures Format(Block(167772672, 24)) == "10.0.2.0/24"
  {
  }

  lemma PublicText1()
    ensures Format(Block(167772928, 24)) == "10.0.3.0/24"
  {
  }

  lemma PublicText2()
    ensures Format(Block(167773184, 24)) == "10.0.4.0/24"
  {
  }

  lemma PublicText3()
    ensures Format(Block(167773440, 24)) == "10.0.5.0/24"
  {
  }

  lemma TransitGatewayText1()
    ensures Format(Block(167773696, 27)) == "10.0.6.0/27"
  {
  }

  lemma TransitGatewayText2()
    ensures Format(Block(167773728, 27)) == "10.0.6.32/27"
  {
  }

  lemma TransitGatewayText3()
    ensures Format(Block(167773760, 27)) == "10.0.6.64/27"
  {
  }

  /** The shipped VPC's subnets in CIDR notation: three /24s per tier and three /27s in 10.0.6.0/24. */
  lemma ShippedSubnets()
    ensures Valid(ShippedBlock)
    ensures Format(SubnetCidr(ShippedBlock, Private, 1).value) == "10.0.0.0/24"
    ensures Format(SubnetCidr(ShippedBlock, Private, 2).value) == "10.0.1.0/24"
    ensures Format(SubnetCidr(ShippedBlock, Private, 3).value) == "10.0.2.0/24"
    ensures Format(SubnetCidr(ShippedBlock, Public, 1).value) == "10.0.3.0/24"
    ensures Format(SubnetCidr(ShippedBlock, Public, 2).value) == "10.0.4.0/24"
    ensures Format(SubnetCidr(ShippedBlock, Public, 3).value) == "10.0.5.0/24"
    ensures Format(SubnetCidr(ShippedBlock, TransitGateway, 1).value) == "10.0.6.0/27"
    ensures Format(SubnetCidr(ShippedBlock, TransitGateway, 2).value) == "10.0.6.32/27"
    ensures Format(SubnetCidr(ShippedBlock, TransitGateway, 3).value) == "10.0.6.64/27"
  {
    ShippedSubnetBlocks();
    PrivateText1();
    PrivateText2();
    PrivateText3();
    PublicText1();
    PublicText2();
    PublicText3();
    TransitGatewayText1();
    TransitGatewayText2();
    TransitGatewayText3();
  }

  /**
   * With every gateway id left empty, the catalog synthesizes despite the empty
   * bus ARN: it holds only the base and public-subnet products, and neither
   * attachment stack would declare anything.
   */
  lemma ShippedCatalog(v: VpcProduct.Variant)
    ensures ServiceCatalog.Catalog(ShippedTgw, EventBusArn).Success?
    ensures |ServiceCatalog.Catalog(ShippedTgw, EventBusArn).value.products| == 2
    ensures VpcProduct.AttachmentPropsFor(ShippedTgw, v) == None
  {
    ServiceCatalog.AttachmentProductOffered(ShippedTgw);
  }

  /**
   * Filling in only the main gateway and its two route tables while keeping
   * the shipped bus ARN stops the catalog's synthesis.
   */
  lemma ConfiguredMainStopsCatalog()
    ensures
      var tgw := TgwConfiguration(Some("tgw-1"), Some("rtb-w"), Some("rtb-s"), None, None, None);
      ServiceCatalog.Catalog(tgw, EventBusArn) == Failure(VpcProduct.BusArnRejected)
  {
    var tgw := TgwConfiguration(Some("tgw-1"), Some("rtb-w"), Some("rtb-s"), None, None, None);
    assert VpcProduct.AttachmentPropsFor(tgw, VpcProduct.Main).Some?;
  }

  /**
   * The shipped bus ARN is empty, which the CDK cannot split: once a gateway
   * and its two route tables are filled in, every attachment variant fails
   * synthesis whatever VPC block the lookup returns.
   */
  lemma ShippedBusArnRejected(tgw: TgwConfiguration, v: VpcProduct.Variant, vpc: Block, cfg: VpcConfiguration,
                              region: string)
    requires WellTyped(cfg) && VpcProduct.AttachmentPropsFor(tgw, v).Some?
    ensures VpcProduct.AttachmentStack(tgw, EventBusArn, v, vpc, cfg, region) == Failure(VpcProduct.BusArnRejected)
  {
  }

  /**
   * The shipped sharing settings pass the share gate: `[""]` is a present
   * list, so the share is declared with one principal, the organisation ARN
   * with an empty id.
   */
  lemma ShippedShare(region: string, account: string, deployedId: string -> string)
    ensures TestEnv.Share(ShippedTestEnv, region, account, deployedId).Some?
    ensures TestEnv.Share(ShippedTestEnv, region, account, deployedId).value.principals
      == [TestEnv.PrincipalArn(account, "")]
  {
    var s := TestEnv.Share(ShippedTestEnv, region, account, deployedId).value;
    assert |s.principals| == 1;
    TestEnv.PrincipalOfArn(account, "");
    assert TestEnv.PrincipalOf(account, s.principals[0]) == Some("");
  }
}
