/**
 * The Service Catalog portfolio of src/service_catalog.ts: the base-VPC and
 * public-subnet products are always offered; the transit-gateway attachment
 * product is offered with a `main_v1` version when the main gateway id is
 * set, a `migrate_v1` version when the migrate gateway id is set, and not at
 * all when neither is.  Every version is locked and its template validated.
 * Synthesis fails when an attachment stack it constructs rejects the bus ARN.
 */
module ServiceCatalog {
  import opened Results
  import opened Configuration
  import VpcProduct
  import Ipv4

  /** The product stack a version deploys. */
  datatype StackKind = BaseVpc | PublicSubnets | Attachment(variant: VpcProduct.Variant)

  datatype ProductVersion = ProductVersion(name: string, stack: StackKind, locked: bool, validateTemplate: bool)

  datatype Product = Product(name: string, owner: string, versions: seq<ProductVersion>)

  /** The portfolio, and the organisations granted read access to the asset bucket. */
  datatype Portfolio = Portfolio(
    displayName: string,
    providerName: string,
    products: seq<Product>,
    assetReaders: seq<string>)

  const Owner := "Jose"
  const BaseProductName := "AnyCompany Base VPC"
  const PublicProductName := "AnyCompany Base VPC Public Subnets"
  const AttachmentProductName := "AnyCompany Base VPC TGW Attachment"

  /** The current version of a product-stack history: locked, with template validation. */
  function CurrentVersion(name: string, stack: StackKind): ProductVersion {
    ProductVersion(name, stack, true, true)
  }

  function BaseProduct(): Product {
    Product(BaseProductName, Owner, [CurrentVersion("v1", BaseVpc)])
  }

  function PublicProduct(): Product {
    Product(PublicProductName, Owner, [CurrentVersion("v1", PublicSubnets)])
  }

  /** The attachment versions, in the order the source pushes them. */
  function AttachmentVersions(tgw: TgwConfiguration): (vs: seq<ProductVersion>)
    ensures |vs| <= 2
  {
    (if Truthy(tgw.mainTransitGatewayId) then [CurrentVersion("main_v1", Attachment(VpcProduct.Main))] else [])
    + (if Truthy(tgw.migrateTransitGatewayId) then [CurrentVersion("migrate_v1", Attachment(VpcProduct.Migrate))] else [])
  }

  /** The portfolio and its products, in the order they are added. */
  function Assembled(tgw: TgwConfiguration): (p: Portfolio)
    ensures 2 <= |p.products| <= 3
    ensures p.products[0] == BaseProduct() && p.products[1] == PublicProduct()
  {
    var versions := AttachmentVersions(tgw);
    Portfolio(
      "AnyCompany VPC Portfolio",
      Owner,
      [BaseProduct(), PublicProduct()]
        + (if |versions| != 0 then [Product(AttachmentProductName, Owner, versions)] else []),
      [OrganizationId])
  }

  /**
   * Synthesizing the catalog stack. The stack constructs the attachment stack
   * of every offered variant, so a variant that passes props to the attachment
   * construct while the bus ARN cannot be split stops synthesis; otherwise the
   * result is the assembled portfolio.
   */
  function Catalog(tgw: TgwConfiguration, busArn: string): (r: Result<Portfolio, VpcProduct.AttachmentError>)
    ensures r.Failure? <==>
      !VpcProduct.ArnShaped(busArn) && exists v: VpcProduct.Variant :: VpcProduct.AttachmentPropsFor(tgw, v).Some?
    ensures r.Failure? ==> r.error == VpcProduct.BusArnRejected
    ensures r.Success? ==> r.value == Assembled(tgw)
  {
    if !VpcProduct.ArnShaped(busArn)
      && (VpcProduct.AttachmentPropsFor(tgw, VpcProduct.Main).Some?
          || VpcProduct.AttachmentPropsFor(tgw, VpcProduct.Migrate).Some?)
    then Failure(VpcProduct.BusArnRejected)
    else Success(Assembled(tgw))
  }

  /** Whether the catalog offers a version deploying the attachment stack of variant `v`. */
  predicate Offers(tgw: TgwConfiguration, v: VpcProduct.Variant) {
    exists k :: 0 <= k < |AttachmentVersions(tgw)| && AttachmentVersions(tgw)[k].stack == Attachment(v)
  }

  /**
   * A variant's version is offered exactly when its gateway id is set (present
   * and non-empty); `main_v1` comes before `migrate_v1`.
   */
  lemma AttachmentVersionsOffered(tgw: TgwConfiguration)
    ensures Offers(tgw, VpcProduct.Main) <==> Truthy(tgw.mainTransitGatewayId)
    ensures Offers(tgw, VpcProduct.Migrate) <==> Truthy(tgw.migrateTransitGatewayId)
    ensures |AttachmentVersions(tgw)| == 2 ==>
      AttachmentVersions(tgw)[0].name == "main_v1" && AttachmentVersions(tgw)[1].name == "migrate_v1"
  {
    var vs := AttachmentVersions(tgw);
    if Offers(tgw, VpcProduct.Main) {
      var k :| 0 <= k < |vs| && vs[k].stack == Attachment(VpcProduct.Main);
    }
    if Offers(tgw, VpcProduct.Migrate) {
      var k :| 0 <= k < |vs| && vs[k].stack == Attachment(VpcProduct.Migrate);
    }
    if Truthy(tgw.mainTransitGatewayId) {
      assert vs[0].stack == Attachment(VpcProduct.Main);
    }
    if Truthy(tgw.migrateTransitGatewayId) {
      assert vs[|vs| - 1].stack == Attachment(VpcProduct.Migrate);
    }
  }

  /** The attachment product is in the portfolio exactly when some gateway id is set. */
  lemma AttachmentProductOffered(tgw: TgwConfiguration)
    ensures |Assembled(tgw).products| == 3 <==>
      Truthy(tgw.mainTransitGatewayId) || Truthy(tgw.migrateTransitGatewayId)
    ensures |Assembled(tgw).products| == 3 ==>
      Assembled(tgw).products[2] == Product(AttachmentProductName, Owner, AttachmentVersions(tgw))
  {
  }

  /** Every version of every product is locked and has its template validated. */
  lemma VersionsLocked(tgw: TgwConfiguration)
    ensures forall j, k :: 0 <= j < |Assembled(tgw).products| && 0 <= k < |Assembled(tgw).products[j].versions| ==>
      Assembled(tgw).products[j].versions[k].locked && Assembled(tgw).products[j].versions[k].validateTemplate
  {
    var ps := Assembled(tgw).products;
    forall j, k | 0 <= j < |ps| && 0 <= k < |ps[j].versions|
      ensures ps[j].versions[k].locked && ps[j].versions[k].validateTemplate
    {
      if j == 2 {
        assert ps[j].versions == AttachmentVersions(tgw);
      }
    }
  }

  // ---- the catalog against the attachment stacks ----

  /**
   * Whatever the attachment stacks declare is offered: a variant whose
   * attachment is built has its version in the catalog.
   */
  lemma BuiltIsOffered(tgw: TgwConfiguration, v: VpcProduct.Variant)
    ensures VpcProduct.AttachmentPropsFor(tgw, v).Some? ==> Offers(tgw, v)
  {
    AttachmentVersionsOffered(tgw);
  }

  /**
   * The catalog tests the gateway id only while the stack also needs both
   * route-table ids: an offered version passes props to the attachment
   * construct exactly when its route tables are set too, and it builds an
   * attachment exactly when, in addition, the bus ARN can be split and the
   * looked-up VPC block admits the subnet split.
   */
  lemma OfferedBuildsIff(tgw: TgwConfiguration, busArn: string, v: VpcProduct.Variant, vpc: Ipv4.Block,
                         cfg: VpcConfiguration, region: string)
    requires Offers(tgw, v) && WellTyped(cfg)
    ensures VpcProduct.AttachmentPropsFor(tgw, v).Some? <==>
      Truthy(VpcProduct.WorkloadTableOf(tgw, v)) && Truthy(VpcProduct.SharedTableOf(tgw, v))
    ensures
      var r := VpcProduct.AttachmentStack(tgw, busArn, v, vpc, cfg, region);
      r.Success? && r.value.Some? <==>
        && Truthy(VpcProduct.WorkloadTableOf(tgw, v)) && Truthy(VpcProduct.SharedTableOf(tgw, v))
        && VpcProduct.ArnShaped(busArn) && Ipv4.Valid(vpc) && vpc.len <= 21
  {
    AttachmentVersionsOffered(tgw);
  }

  /**
   * The catalog fails to synthesize exactly when one of the attachment stacks
   * it constructs is rejected for its bus ARN, whatever VPC block that stack
   * would later look up.
   */
  lemma CatalogFailsWithStack(tgw: TgwConfiguration, busArn: string, vpc: Ipv4.Block, cfg: VpcConfiguration,
                              region: string)
    requires WellTyped(cfg)
    ensures Catalog(tgw, busArn).Failure? <==>
      exists v: VpcProduct.Variant ::
        Offers(tgw, v) && VpcProduct.AttachmentStack(tgw, busArn, v, vpc, cfg, region) == Failure(VpcProduct.BusArnRejected)
  {
    AttachmentVersionsOffered(tgw);
    if Catalog(tgw, busArn).Failure? {
      var v: VpcProduct.Variant :| VpcProduct.AttachmentPropsFor(tgw, v).Some?;
      assert Offers(tgw, v);
      assert VpcProduct.AttachmentStack(tgw, busArn, v, vpc, cfg, region) == Failure(VpcProduct.BusArnRejected);
    }
  }

  /**
   * With the main gateway set and its route tables left empty, `main_v1` is
   * offered and provisioning it declares no resources at all, whatever the bus ARN.
   */
  lemma OfferedButEmpty(busArn: string, vpc: Ipv4.Block, cfg: VpcConfiguration, region: string)
    requires WellTyped(cfg)
    ensures
      var tgw := TgwConfiguration(Some("tgw-0123"), Some(""), Some(""), None, None, None);
      Offers(tgw, VpcProduct.Main)
      && VpcProduct.AttachmentStack(tgw, busArn, VpcProduct.Main, vpc, cfg, region) == Success(None)
  {
    var tgw := TgwConfiguration(Some("tgw-0123"), Some(""), Some(""), None, None, None);
    AttachmentVersionsOffered(tgw);
  }
}
