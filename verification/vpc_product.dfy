/**
 * The three consumer-account products of src/vpc_product.ts, reduced to the
 * values their resources carry: subnet blocks, availability zones, export and
 * import names, the attachment gate and the forwarding rule.
 *  - BaseVPCStack: the VPC and one private subnet per zone, exporting the VPC
 *    id and each private subnet's id and route-table id;
 *  - PublicSubnetStack: one public subnet per zone in the imported VPC and,
 *    when NAT is enabled, a NAT gateway per public subnet with a default route
 *    from the private subnet of the same zone;
 *  - TGWAttachmentStack / MigrateTGWAttachmentStack: when the gateway and both
 *    of its route tables are configured, one transit-gateway subnet per zone,
 *    the VPC attachment, a default route per private subnet and a rule
 *    forwarding attachment-created events to the central bus.
 * Resource references are kept symbolic (`ValueRef`): they are resolved by
 * CloudFormation at deployment, not computed here.
 */
module VpcProduct {
  import opened Results
  import opened Resources
  import opened Ipv4
  import opened Intrinsics
  import opened AddressPlan
  import opened Configuration
  import opened EventPatterns
  import Decimal
  import Arith
  import Text

  datatype Subnet = Subnet(id: string, vpcId: ValueRef, cidr: Block, availabilityZone: string)

  datatype NatGateway = NatGateway(id: string, subnetId: ValueRef)

  datatype Route = Route(id: string, routeTableId: ValueRef, destination: string, target: ValueRef)

  const BaseVpcId := "BaseVPC"
  const BaseVpcIdExport := "BaseVPCId"
  const DefaultRoute := "0.0.0.0/0"
  const NatEnabled := "true"

  // ---- names ----

  /** `${prefix}${i}${suffix}`. */
  function Numbered(prefix: string, i: nat, suffix: string): string {
    prefix + Decimal.NatToString(i) + suffix
  }

  function PrivateSubnetId(i: AzIndex): string { Numbered("PrivateSubnet", i, "") }
  function PrivateSubnetIdExport(i: AzIndex): string { Numbered("PrivateSubnet", i, "Id") }
  function PrivateRouteTableExport(i: AzIndex): string { Numbered("PrivateSubnet", i, "RouteTableId") }
  function PublicSubnetId(i: AzIndex): string { Numbered("PublicSubnet", i, "") }
  function PublicSubnetIdExport(i: AzIndex): string { Numbered("PublicSubnet", i, "Id") }
  function NatGatewayId(i: AzIndex): string { Numbered("NATGatewayPublicSubnet", i, "") }
  function NatRouteId(i: AzIndex): string { Numbered("NATGatewayRoutePrivateSubnet", i, "") }
  function TgwSubnetId(i: AzIndex): string { Numbered("TransitGatewaySubnet", i, "") }
  function TgwSubnetIdExport(i: AzIndex): string { Numbered("TransitGatewaySubnet", i, "Id") }
  function TgwRouteId(i: AzIndex): string { Numbered("TransitGatewayRoute", i, "") }

  /** `${region}${AvailabilityZones[i-1]}`: the zone every tier's subnet of zone `i` is placed in. */
  function Zone(cfg: VpcConfiguration, region: string, i: AzIndex): string
    requires WellTyped(cfg)
  {
    region + cfg.availabilityZones[i - 1]
  }

  // ---- BaseVPCStack ----

  datatype BaseVpcTemplate = BaseVpcTemplate(vpcCidr: Block, subnets: seq<Subnet>, outputs: seq<Output>)

  /** EC2 accepts VPC blocks from /16 to /28. */
  const VpcMinPrefix: nat := 16
  const VpcMaxPrefix: nat := 28

  datatype StackError =
    | MalformedVpcCidr           // the configured text is not CIDR notation
    | VpcPrefixOutOfRange        // EC2 refuses the VPC: prefix outside /16../28
    | SplitFailed(error: CidrError)

  function PrivateSubnet(vpc: Block, cfg: VpcConfiguration, region: string, i: AzIndex): Subnet
    requires Valid(vpc) && vpc.len <= 21 && WellTyped(cfg)
  {
    Subnet(PrivateSubnetId(i), Ref(BaseVpcId), PrivateSubnetCidr(vpc, i).value, Zone(cfg, region, i))
  }

  function PrivateOutputs(i: AzIndex): seq<Output> {
    [Output(PrivateSubnetIdExport(i), Ref(PrivateSubnetId(i))),
     Output(PrivateRouteTableExport(i), SubnetRouteTable(PrivateSubnetId(i)))]
  }

  /**
   * The VPC and its three private subnets.  EC2 creates the VPC from the
   * configured text, clearing any host bits (10.0.0.5/20 becomes 10.0.0.0/20),
   * and refuses prefixes outside /16../28; the subnets split the block EC2
   * reports back (`attrCidrBlock`), so the split sees the canonical block.
   */
  function BaseVpcStack(cfg: VpcConfiguration, region: string): (r: Result<BaseVpcTemplate, StackError>)
    requires WellTyped(cfg)
    ensures r.Success? <==>
      Parse(cfg.vpcCidr).Some? && VpcMinPrefix <= Parse(cfg.vpcCidr).value.len <= 21
    ensures Parse(cfg.vpcCidr).None? ==> r == Failure(MalformedVpcCidr)
    ensures Parse(cfg.vpcCidr).Some? && !(VpcMinPrefix <= Parse(cfg.vpcCidr).value.len <= VpcMaxPrefix) ==>
      r == Failure(VpcPrefixOutOfRange)
    ensures r.Success? ==> r.value.vpcCidr == Canonical(Parse(cfg.vpcCidr).value) && |r.value.subnets| == 3
  {
    match Parse(cfg.vpcCidr)
    case None => Failure(MalformedVpcCidr)
    case Some(requested) =>
      if requested.len < VpcMinPrefix || requested.len > VpcMaxPrefix then Failure(VpcPrefixOutOfRange)
      else
        var vpc := Canonical(requested);
        match PrivateSubnetCidr(vpc, 1)
        case Failure(e) => Failure(SplitFailed(e))
        case Success(_) =>
          Success(BaseVpcTemplate(
            vpc,
            [PrivateSubnet(vpc, cfg, region, 1), PrivateSubnet(vpc, cfg, region, 2), PrivateSubnet(vpc, cfg, region, 3)],
            [Output(BaseVpcIdExport, Ref(BaseVpcId))] + PrivateOutputs(1) + PrivateOutputs(2) + PrivateOutputs(3)))
  }

  /** Text with host bits set is accepted: 10.0.0.5/20 yields the VPC 10.0.0.0/20. */
  lemma UnalignedVpcAccepted(region: string)
    ensures
      var r := BaseVpcStack(VpcConfiguration("10.0.0.5/20", ["a", "b", "c"]), region);
      r.Success? && r.value.vpcCidr == Block(167772160, 20)
  {
    var requested := Block(167772165, 20);
    assert Format(requested) == "10.0.0.5/20";
    ParseFormat(requested);
    var vpc := Block(167772160, 20);
    assert Arith.Pow2(12) == 4096;
    Arith.IsMultipleMeansModZero(167772160, 4096);
    CanonicalUnique(requested, vpc);
  }

  /** A block wider than /16 is refused before any subnet is split. */
  lemma WideVpcRefused(region: string)
    ensures BaseVpcStack(VpcConfiguration("10.0.0.0/8", ["a", "b", "c"]), region) == Failure(VpcPrefixOutOfRange)
  {
    var requested := Block(167772160, 8);
    assert Format(requested) == "10.0.0.0/8";
    ParseFormat(requested);
  }

  // ---- PublicSubnetStack ----

  datatype PublicSubnetTemplate = PublicSubnetTemplate(
    vpcLookup: ValueRef,
    subnets: seq<Subnet>,
    outputs: seq<Output>,
    natGateways: seq<NatGateway>,
    natRoutes: seq<Route>)

  function PublicSubnet(vpc: Block, cfg: VpcConfiguration, region: string, i: AzIndex): Subnet
    requires Valid(vpc) && vpc.len <= 21 && WellTyped(cfg)
  {
    Subnet(PublicSubnetId(i), ImportValue(BaseVpcIdExport), PublicSubnetCidr(vpc, i).value, Zone(cfg, region, i))
  }

  function NatRoute(i: AzIndex): Route {
    Route(NatRouteId(i), ImportValue(PrivateRouteTableExport(i)), DefaultRoute, Ref(NatGatewayId(i)))
  }

  /**
   * The public subnets of the VPC whose block `vpc` the describeVpcs lookup
   * returned; NAT gateways and their routes only when `enableNat` is `'true'`.
   */
  function PublicSubnetStack(vpc: Block, cfg: VpcConfiguration, region: string, enableNat: string)
    : (r: Result<PublicSubnetTemplate, CidrError>)
    requires WellTyped(cfg)
    ensures r.Success? <==> Valid(vpc) && vpc.len <= 21
    ensures r.Success? ==> |r.value.subnets| == 3
    ensures r.Success? ==> (|r.value.natGateways| == |r.value.natRoutes| == (if enableNat == NatEnabled then 3 else 0))
  {
    match PublicSubnetCidr(vpc, 1)
    case Failure(e) => Failure(e)
    case Success(_) =>
      Success(PublicSubnetTemplate(
        ImportValue(BaseVpcIdExport),
        [PublicSubnet(vpc, cfg, region, 1), PublicSubnet(vpc, cfg, region, 2), PublicSubnet(vpc, cfg, region, 3)],
        [Output(PublicSubnetIdExport(1), Ref(PublicSubnetId(1))),
         Output(PublicSubnetIdExport(2), Ref(PublicSubnetId(2))),
         Output(PublicSubnetIdExport(3), Ref(PublicSubnetId(3)))],
        if enableNat == NatEnabled then
          [NatGateway(NatGatewayId(1), Ref(PublicSubnetId(1))),
           NatGateway(NatGatewayId(2), Ref(PublicSubnetId(2))),
           NatGateway(NatGatewayId(3), Ref(PublicSubnetId(3)))]
        else [],
        if enableNat == NatEnabled then [NatRoute(1), NatRoute(2), NatRoute(3)] else []))
  }

  // ---- TGWAttachmentStack and MigrateTGWAttachmentStack ----

  datatype Variant = Main | Migrate

  datatype AttachmentProps = AttachmentProps(
    transitGatewayId: string,
    associationRouteTableId: string,
    propagationRouteTableId: string)

  function GatewayIdOf(cfg: TgwConfiguration, v: Variant): Option<string> {
    if v == Main then cfg.mainTransitGatewayId else cfg.migrateTransitGatewayId
  }

  function WorkloadTableOf(cfg: TgwConfiguration, v: Variant): Option<string> {
    if v == Main then cfg.mainTgwWorkloadRtId else cfg.migrateTgwWorkloadRtId
  }

  function SharedTableOf(cfg: TgwConfiguration, v: Variant): Option<string> {
    if v == Main then cfg.mainTgwSharedRtId else cfg.migrateTgwSharedRtId
  }

  /**
   * The props each variant's stack passes to its attachment, or `None` when the
   * stack declares nothing.  The two stacks test their three ids in different
   * orders; the contract states the one rule both follow.
   */
  function AttachmentPropsFor(cfg: TgwConfiguration, v: Variant): (r: Option<AttachmentProps>)
    ensures r.Some? <==>
      Truthy(GatewayIdOf(cfg, v)) && Truthy(WorkloadTableOf(cfg, v)) && Truthy(SharedTableOf(cfg, v))
    ensures r.Some? ==>
      && r.value.transitGatewayId == GatewayIdOf(cfg, v).value
      && r.value.associationRouteTableId == WorkloadTableOf(cfg, v).value
      && r.value.propagationRouteTableId == SharedTableOf(cfg, v).value
  {
    match v
    case Main =>
      if Truthy(cfg.mainTransitGatewayId) && Truthy(cfg.mainTgwWorkloadRtId) && Truthy(cfg.mainTgwSharedRtId) then
        Some(AttachmentProps(cfg.mainTransitGatewayId.value, cfg.mainTgwWorkloadRtId.value, cfg.mainTgwSharedRtId.value))
      else None
    case Migrate =>
      if Truthy(cfg.migrateTransitGatewayId) && Truthy(cfg.migrateTgwSharedRtId) && Truthy(cfg.migrateTgwWorkloadRtId) then
        Some(AttachmentProps(cfg.migrateTransitGatewayId.value, cfg.migrateTgwWorkloadRtId.value, cfg.migrateTgwSharedRtId.value))
      else None
  }

  datatype VpcAttachment = VpcAttachment(
    vpcId: ValueRef,
    subnetIds: seq<ValueRef>,
    transitGatewayId: string,
    tags: seq<Tag>)

  datatype AttachmentTemplate = AttachmentTemplate(
    vpcLookup: ValueRef,
    subnets: seq<Subnet>,
    outputs: seq<Output>,
    forwardRule: EventPattern,
    forwardTarget: string,
    attachment: VpcAttachment,
    tgwRoutes: seq<Route>)

  /** The rule that forwards attachment-created API calls to the central bus. */
  const AttachmentCreatedPattern :=
    EventPattern([Ec2Source], Some([CloudTrailDetailType]), [CreateAttachmentEvent])

  /** The forwarding rule matches exactly the CloudTrail record of a VPC attachment being created by EC2. */
  lemma AttachmentCreatedMatches(e: Event)
    ensures Matches(AttachmentCreatedPattern, e) <==>
      e.source == "aws.ec2" && e.detailType == "AWS API Call via CloudTrail"
      && e.eventName == Some("CreateTransitGatewayVpcAttachment")
  {
  }

  function TgwSubnet(vpc: Block, cfg: VpcConfiguration, region: string, i: AzIndex): Subnet
    requires Valid(vpc) && vpc.len <= 21 && WellTyped(cfg)
  {
    Subnet(TgwSubnetId(i), ImportValue(BaseVpcIdExport), TgwSubnetCidr(vpc, i).value, Zone(cfg, region, i))
  }

  function TgwRoute(tgwId: string, i: AzIndex): Route {
    Route(TgwRouteId(i), ImportValue(PrivateRouteTableExport(i)), DefaultRoute, Literal(tgwId))
  }

  /**
   * What `EventBus.fromEventBusArn` accepts when it splits a literal ARN during
   * synthesis: the text starts with `arn:` and, cut at every `:`, has at least
   * six components whose partition, service and resource parts are non-empty.
   */
  predicate ArnShaped(s: string) {
    && |s| >= 4 && s[..4] == "arn:"
    && var c := Text.Split(s, ':');
       |c| >= 6 && c[1] != "" && c[2] != "" && c[5] != ""
  }

  /**
   * Every ARN assembled from colon-free components, with a partition, a service
   * and a resource, passes the check; the empty text does not.
   */
  lemma ArnShapedOf(partition: string, service: string, region: string, account: string, resource: string)
    requires ':' !in partition && ':' !in service && ':' !in region && ':' !in account && ':' !in resource
    requires partition != "" && service != "" && resource != ""
    ensures ArnShaped("arn:" + partition + ":" + service + ":" + region + ":" + account + ":" + resource)
    ensures !ArnShaped("")
  {
    var parts := ["arn", partition, service, region, account, resource];
    var s := "arn:" + partition + ":" + service + ":" + region + ":" + account + ":" + resource;
    assert Text.Join(parts[5..], ':') == resource;
    assert Text.Join(parts[4..], ':') == account + ":" + resource by { assert parts[4..][1..] == parts[5..]; }
    assert Text.Join(parts[3..], ':') == region + ":" + Text.Join(parts[4..], ':') by { assert parts[3..][1..] == parts[4..]; }
    assert Text.Join(parts[2..], ':') == service + ":" + Text.Join(parts[3..], ':') by { assert parts[2..][1..] == parts[3..]; }
    assert Text.Join(parts[1..], ':') == partition + ":" + Text.Join(parts[2..], ':') by { assert parts[1..][1..] == parts[2..]; }
    assert Text.Join(parts, ':') == "arn" + ":" + Text.Join(parts[1..], ':');
    assert Text.Join(parts, ':') == s;
    assert Text.FreeOf(parts, ':');
    Text.SplitJoin(parts, ':');
    assert s[..4] == "arn:";
  }

  /** Why an attachment stack cannot be built. */
  datatype AttachmentError =
    | BusArnRejected
    | AttachmentSplitFailed(error: CidrError)

  /** The `TGWAttachment` construct, forwarding to the bus `busArn`. */
  function TgwAttachment(props: AttachmentProps, busArn: string, vpc: Block, cfg: VpcConfiguration, region: string)
    : AttachmentTemplate
    requires Valid(vpc) && vpc.len <= 21 && WellTyped(cfg)
  {
    AttachmentTemplate(
      ImportValue(BaseVpcIdExport),
      [TgwSubnet(vpc, cfg, region, 1), TgwSubnet(vpc, cfg, region, 2), TgwSubnet(vpc, cfg, region, 3)],
      [Output(TgwSubnetIdExport(1), Ref(TgwSubnetId(1))),
       Output(TgwSubnetIdExport(2), Ref(TgwSubnetId(2))),
       Output(TgwSubnetIdExport(3), Ref(TgwSubnetId(3)))],
      AttachmentCreatedPattern,
      busArn,
      VpcAttachment(
        ImportValue(BaseVpcIdExport),
        [Ref(TgwSubnetId(1)), Ref(TgwSubnetId(2)), Ref(TgwSubnetId(3))],
        props.transitGatewayId,
        [Tag("Type", "Workload")]),
      [TgwRoute(props.transitGatewayId, 1), TgwRoute(props.transitGatewayId, 2), TgwRoute(props.transitGatewayId, 3)])
  }

  /**
   * The attachment stack of a variant: nothing unless the variant's gateway and
   * both route tables are configured; otherwise the attachment in the VPC whose
   * block the describeVpcs lookup returned. A bus ARN the CDK cannot split stops
   * synthesis before any split of the looked-up block is attempted at deploy time.
   */
  function AttachmentStack(tgw: TgwConfiguration, busArn: string, v: Variant, vpc: Block, cfg: VpcConfiguration,
                           region: string)
    : (r: Result<Option<AttachmentTemplate>, AttachmentError>)
    requires WellTyped(cfg)
    ensures AttachmentPropsFor(tgw, v).None? ==> r == Success(None)
    ensures AttachmentPropsFor(tgw, v).Some? ==> (r == Failure(BusArnRejected) <==> !ArnShaped(busArn))
    ensures AttachmentPropsFor(tgw, v).Some? ==>
      (r.Success? <==> ArnShaped(busArn) && Valid(vpc) && vpc.len <= 21)
    ensures AttachmentPropsFor(tgw, v).Some? && r.Success? ==>
      r.value.Some? && r.value.value.forwardTarget == busArn
      && r.value.value.attachment.transitGatewayId == AttachmentPropsFor(tgw, v).value.transitGatewayId
  {
    match AttachmentPropsFor(tgw, v)
    case None => Success(None)
    case Some(props) =>
      if !ArnShaped(busArn) then Failure(BusArnRejected)
      else
        match TgwSubnetCidr(vpc, 1)
        case Failure(e) => Failure(AttachmentSplitFailed(e))
        case Success(_) => Success(Some(TgwAttachment(props, busArn, vpc, cfg, region)))
  }

  // ---- the templates of one consumer account, together ----

  /**
   * The base, public-subnet and attachment templates one account synthesizes
   * for its VPC. This says nothing about EC2 accepting all three: with NAT
   * enabled the public-subnet and attachment templates both add a default route
   * to the same private route tables (`NatConflictsWithAttachment`).
   */
  predicate Deployed(
    cfg: VpcConfiguration, region: string, tgw: TgwConfiguration, busArn: string, v: Variant, enableNat: string,
    b: BaseVpcTemplate, p: PublicSubnetTemplate, t: AttachmentTemplate)
  {
    && WellTyped(cfg)
    && BaseVpcStack(cfg, region) == Success(b)
    && PublicSubnetStack(b.vpcCidr, cfg, region, enableNat) == Success(p)
    && AttachmentStack(tgw, busArn, v, b.vpcCidr, cfg, region) == Success(Some(t))
  }

  lemma BaseShape(cfg: VpcConfiguration, region: string, b: BaseVpcTemplate)
    requires WellTyped(cfg) && BaseVpcStack(cfg, region) == Success(b)
    ensures Valid(b.vpcCidr) && b.vpcCidr.len <= 21
    ensures b.subnets == [PrivateSubnet(b.vpcCidr, cfg, region, 1), PrivateSubnet(b.vpcCidr, cfg, region, 2),
                          PrivateSubnet(b.vpcCidr, cfg, region, 3)]
    ensures b.outputs == [Output(BaseVpcIdExport, Ref(BaseVpcId))] + PrivateOutputs(1) + PrivateOutputs(2) + PrivateOutputs(3)
  {
  }

  lemma PublicShape(vpc: Block, cfg: VpcConfiguration, region: string, enableNat: string, p: PublicSubnetTemplate)
    requires WellTyped(cfg) && PublicSubnetStack(vpc, cfg, region, enableNat) == Success(p)
    ensures p.vpcLookup == ImportValue(BaseVpcIdExport)
    ensures p.subnets == [PublicSubnet(vpc, cfg, region, 1), PublicSubnet(vpc, cfg, region, 2),
                          PublicSubnet(vpc, cfg, region, 3)]
    ensures p.natRoutes == if enableNat == NatEnabled then [NatRoute(1), NatRoute(2), NatRoute(3)] else []
  {
  }

  lemma AttachmentShape(tgw: TgwConfiguration, busArn: string, v: Variant, vpc: Block, cfg: VpcConfiguration, region: string,
                        t: AttachmentTemplate)
    requires WellTyped(cfg) && AttachmentStack(tgw, busArn, v, vpc, cfg, region) == Success(Some(t))
    ensures AttachmentPropsFor(tgw, v).Some? && Valid(vpc) && vpc.len <= 21
    ensures ArnShaped(busArn)
    ensures t == TgwAttachment(AttachmentPropsFor(tgw, v).value, busArn, vpc, cfg, region)
  {
  }

  /** The declared subnets of the three templates built for `vpc`, tier by tier. */
  predicate Shaped(vpc: Block, cfg: VpcConfiguration, region: string,
                   b: BaseVpcTemplate, p: PublicSubnetTemplate, t: AttachmentTemplate)
    requires Valid(vpc) && vpc.len <= 21 && WellTyped(cfg)
  {
    && b.vpcCidr == vpc
    && b.subnets == [TierSubnet(vpc, cfg, region, Private, 1), TierSubnet(vpc, cfg, region, Private, 2),
                     TierSubnet(vpc, cfg, region, Private, 3)]
    && p.subnets == [TierSubnet(vpc, cfg, region, Public, 1), TierSubnet(vpc, cfg, region, Public, 2),
                     TierSubnet(vpc, cfg, region, Public, 3)]
    && t.subnets == [TierSubnet(vpc, cfg, region, TransitGateway, 1), TierSubnet(vpc, cfg, region, TransitGateway, 2),
                     TierSubnet(vpc, cfg, region, TransitGateway, 3)]
  }

  lemma DeployedShaped(
    cfg: VpcConfiguration, region: string, tgw: TgwConfiguration, busArn: string, v: Variant, enableNat: string,
    b: BaseVpcTemplate, p: PublicSubnetTemplate, t: AttachmentTemplate)
    requires Deployed(cfg, region, tgw, busArn, v, enableNat, b, p, t)
    ensures Valid(b.vpcCidr) && b.vpcCidr.len <= 21
    ensures Shaped(b.vpcCidr, cfg, region, b, p, t)
  {
    BaseShape(cfg, region, b);
    PublicShape(b.vpcCidr, cfg, region, enableNat, p);
    AttachmentShape(tgw, busArn, v, b.vpcCidr, cfg, region, t);
  }

  /** The names the three templates export, in declaration order. */
  function ConsumerExportNames(): seq<string> {
    [ExportName(VpcIdExport, 1),
     ExportName(PrivateIdExport, 1), ExportName(PrivateTableExport, 1),
     ExportName(PrivateIdExport, 2), ExportName(PrivateTableExport, 2),
     ExportName(PrivateIdExport, 3), ExportName(PrivateTableExport, 3),
     ExportName(PublicIdExport, 1), ExportName(PublicIdExport, 2), ExportName(PublicIdExport, 3),
     ExportName(TgwIdExport, 1), ExportName(TgwIdExport, 2), ExportName(TgwIdExport, 3)]
  }

  lemma BaseExportNames(cfg: VpcConfiguration, region: string, b: BaseVpcTemplate)
    requires WellTyped(cfg) && BaseVpcStack(cfg, region) == Success(b)
    ensures ExportNames(b.outputs) == ConsumerExportNames()[..7]
  {
    BaseShape(cfg, region, b);
  }

  lemma PublicExportNames(vpc: Block, cfg: VpcConfiguration, region: string, enableNat: string, p: PublicSubnetTemplate)
    requires WellTyped(cfg) && PublicSubnetStack(vpc, cfg, region, enableNat) == Success(p)
    ensures ExportNames(p.outputs) == ConsumerExportNames()[7..10]
  {
  }

  lemma AttachmentExportNames(tgw: TgwConfiguration, busArn: string, v: Variant, vpc: Block, cfg: VpcConfiguration, region: string,
                              t: AttachmentTemplate)
    requires WellTyped(cfg) && AttachmentStack(tgw, busArn, v, vpc, cfg, region) == Success(Some(t))
    ensures ExportNames(t.outputs) == ConsumerExportNames()[10..]
  {
    AttachmentShape(tgw, busArn, v, vpc, cfg, region, t);
  }

  lemma DeployedExportNamesAre(
    cfg: VpcConfiguration, region: string, tgw: TgwConfiguration, busArn: string, v: Variant, enableNat: string,
    b: BaseVpcTemplate, p: PublicSubnetTemplate, t: AttachmentTemplate)
    requires Deployed(cfg, region, tgw, busArn, v, enableNat, b, p, t)
    ensures DeployedExportNames(b, p, t) == ConsumerExportNames()
  {
    var all := ConsumerExportNames();
    BaseExportNames(cfg, region, b);
    PublicExportNames(b.vpcCidr, cfg, region, enableNat, p);
    AttachmentExportNames(tgw, busArn, v, b.vpcCidr, cfg, region, t);
    ExportNamesConcat(b.outputs, p.outputs);
    ExportNamesConcat(b.outputs + p.outputs, t.outputs);
    assert all == all[..7] + all[7..10] + all[10..];
  }

  /** The nine subnets of the three templates, private ones first. */
  function AllSubnets(b: BaseVpcTemplate, p: PublicSubnetTemplate, t: AttachmentTemplate): seq<Subnet> {
    b.subnets + p.subnets + t.subnets
  }

  function TierAt(k: nat): Tier {
    if k < 3 then Private else if k < 6 then Public else TransitGateway
  }

  function ZoneAt(k: nat): AzIndex
    requires k < 9
  {
    if k < 3 then k + 1 else if k < 6 then k - 2 else k - 5
  }

  lemma AllSubnetsPlan(
    vpc: Block, cfg: VpcConfiguration, region: string,
    b: BaseVpcTemplate, p: PublicSubnetTemplate, t: AttachmentTemplate, k: nat)
    requires Valid(vpc) && vpc.len <= 21 && WellTyped(cfg)
    requires Shaped(vpc, cfg, region, b, p, t) && k < 9
    ensures |AllSubnets(b, p, t)| == 9
    ensures AllSubnets(b, p, t)[k].cidr == SubnetCidr(vpc, TierAt(k), ZoneAt(k)).value
    ensures AllSubnets(b, p, t)[k].availabilityZone == Zone(cfg, region, ZoneAt(k))
  {
    var all := AllSubnets(b, p, t);
    if k < 3 {
      assert all[k] == b.subnets[k];
      TierSubnetAt(vpc, cfg, region, b.subnets, Private, k);
    } else if k < 6 {
      assert all[k] == p.subnets[k - 3];
      TierSubnetAt(vpc, cfg, region, p.subnets, Public, k - 3);
    } else {
      assert all[k] == t.subnets[k - 6];
      TierSubnetAt(vpc, cfg, region, t.subnets, TransitGateway, k - 6);
    }
  }

  /** The subnet a template declares for tier `t` in zone `i`. */
  function TierSubnet(vpc: Block, cfg: VpcConfiguration, region: string, t: Tier, i: AzIndex): Subnet
    requires Valid(vpc) && vpc.len <= 21 && WellTyped(cfg)
  {
    match t
    case Private => PrivateSubnet(vpc, cfg, region, i)
    case Public => PublicSubnet(vpc, cfg, region, i)
    case TransitGateway => TgwSubnet(vpc, cfg, region, i)
  }

  lemma TierSubnetAt(vpc: Block, cfg: VpcConfiguration, region: string, ss: seq<Subnet>, t: Tier, j: nat)
    requires Valid(vpc) && vpc.len <= 21 && WellTyped(cfg) && j < 3
    requires ss == [TierSubnet(vpc, cfg, region, t, 1), TierSubnet(vpc, cfg, region, t, 2), TierSubnet(vpc, cfg, region, t, 3)]
    ensures ss[j].cidr == SubnetCidr(vpc, t, j + 1).value
    ensures ss[j].availabilityZone == Zone(cfg, region, j + 1)
  {
    if j == 0 {
      assert ss[j] == TierSubnet(vpc, cfg, region, t, 1);
    } else if j == 1 {
      assert ss[j] == TierSubnet(vpc, cfg, region, t, 2);
    } else {
      assert ss[j] == TierSubnet(vpc, cfg, region, t, 3);
    }
  }

  /**
   * The nine subnets the three templates declare are network blocks inside the
   * VPC's block and no two of them share an address.
   */
  lemma DeployedSubnetsDisjoint(
    cfg: VpcConfiguration, region: string, tgw: TgwConfiguration, busArn: string, v: Variant, enableNat: string,
    b: BaseVpcTemplate, p: PublicSubnetTemplate, t: AttachmentTemplate)
    requires Deployed(cfg, region, tgw, busArn, v, enableNat, b, p, t)
    ensures |AllSubnets(b, p, t)| == 9
    ensures forall k :: 0 <= k < 9 ==>
      Valid(AllSubnets(b, p, t)[k].cidr) && Within(AllSubnets(b, p, t)[k].cidr, b.vpcCidr)
    ensures forall j, k :: 0 <= j < k < 9 ==>
      Disjoint(AllSubnets(b, p, t)[j].cidr, AllSubnets(b, p, t)[k].cidr)
  {
    var all := AllSubnets(b, p, t);
    var vpc := b.vpcCidr;
    DeployedShaped(cfg, region, tgw, busArn, v, enableNat, b, p, t);
    forall k | 0 <= k < 9
      ensures Valid(all[k].cidr) && Within(all[k].cidr, b.vpcCidr)
    {
      AllSubnetsPlan(vpc, cfg, region, b, p, t, k);
      SubnetWithinVpc(b.vpcCidr, TierAt(k), ZoneAt(k));
    }
    forall j, k | 0 <= j < k < 9
      ensures Disjoint(all[j].cidr, all[k].cidr)
    {
      AllSubnetsPlan(vpc, cfg, region, b, p, t, j);
      AllSubnetsPlan(vpc, cfg, region, b, p, t, k);
      SubnetsDisjoint(b.vpcCidr, TierAt(j), ZoneAt(j), TierAt(k), ZoneAt(k));
    }
  }

  /**
   * Zone `i` of every tier is the same availability zone, and the NAT route of
   * zone `i` sends the route table that the base template exports for private
   * subnet `i` to the NAT gateway in public subnet `i`.
   */
  lemma NatRoutesPairZones(
    cfg: VpcConfiguration, region: string, tgw: TgwConfiguration, busArn: string, v: Variant, enableNat: string,
    b: BaseVpcTemplate, p: PublicSubnetTemplate, t: AttachmentTemplate)
    requires Deployed(cfg, region, tgw, busArn, v, enableNat, b, p, t)
    ensures |b.subnets| == |p.subnets| == |t.subnets| == 3
    ensures forall k :: 0 <= k < 3 ==>
      b.subnets[k].availabilityZone == p.subnets[k].availabilityZone == t.subnets[k].availabilityZone
    ensures |p.natRoutes| == |p.natGateways| <= 3
    ensures forall k :: 0 <= k < |p.natRoutes| ==>
      && p.natRoutes[k].target == Ref(p.natGateways[k].id)
      && p.natGateways[k].subnetId == Ref(p.subnets[k].id)
      && p.natRoutes[k].routeTableId.ImportValue?
      && Output(p.natRoutes[k].routeTableId.exportName, SubnetRouteTable(b.subnets[k].id)) in b.outputs
  {
  }

  /**
   * The transit-gateway route of zone `i` sends the route table exported for
   * private subnet `i` to the attachment's gateway, and the attachment spans
   * exactly the three transit-gateway subnets.
   */
  lemma TgwRoutesUsePrivateTables(
    cfg: VpcConfiguration, region: string, tgw: TgwConfiguration, busArn: string, v: Variant, enableNat: string,
    b: BaseVpcTemplate, p: PublicSubnetTemplate, t: AttachmentTemplate)
    requires Deployed(cfg, region, tgw, busArn, v, enableNat, b, p, t)
    ensures |t.tgwRoutes| == |t.subnets| == |t.attachment.subnetIds| == 3
    ensures forall k :: 0 <= k < 3 ==>
      && t.attachment.subnetIds[k] == Ref(t.subnets[k].id)
      && t.tgwRoutes[k].target == Literal(t.attachment.transitGatewayId)
      && t.tgwRoutes[k].routeTableId.ImportValue?
      && Output(t.tgwRoutes[k].routeTableId.exportName, SubnetRouteTable(b.subnets[k].id)) in b.outputs
    ensures t.attachment.transitGatewayId == GatewayIdOf(tgw, v).value
  {
  }

  /**
   * With NAT enabled, in whatever VPC both templates are built for, the NAT
   * route and the transit-gateway route of each zone add the same destination,
   * the default route, to the same imported private route table, so the two
   * templates declare conflicting routes.
   */
  lemma NatConflictsWithAttachment(
    vpc: Block, cfg: VpcConfiguration, region: string, tgw: TgwConfiguration, busArn: string, v: Variant,
    p: PublicSubnetTemplate, t: AttachmentTemplate)
    requires WellTyped(cfg) && PublicSubnetStack(vpc, cfg, region, NatEnabled) == Success(p)
    requires AttachmentStack(tgw, busArn, v, vpc, cfg, region) == Success(Some(t))
    ensures |p.natRoutes| == |t.tgwRoutes| == 3
    ensures forall k :: 0 <= k < 3 ==>
      && p.natRoutes[k].routeTableId == t.tgwRoutes[k].routeTableId
      && p.natRoutes[k].destination == t.tgwRoutes[k].destination == "0.0.0.0/0"
      && p.natRoutes[k].target != t.tgwRoutes[k].target
  {
    PublicShape(vpc, cfg, region, NatEnabled, p);
    AttachmentShape(tgw, busArn, v, vpc, cfg, region, t);
  }

  /** The values a subnet list and a route list refer to. */
  function SubnetVpcIds(ss: seq<Subnet>): (r: seq<ValueRef>)
    ensures |r| == |ss| && forall k :: 0 <= k < |ss| ==> r[k] == ss[k].vpcId
  {
    if |ss| == 0 then [] else [ss[0].vpcId] + SubnetVpcIds(ss[1..])
  }

  function RouteTableIds(rs: seq<Route>): (r: seq<ValueRef>)
    ensures |r| == |rs| && forall k :: 0 <= k < |rs| ==> r[k] == rs[k].routeTableId
  {
    if |rs| == 0 then [] else [rs[0].routeTableId] + RouteTableIds(rs[1..])
  }

  /** The values of the public-subnet template that may be imports. */
  function PublicRefs(p: PublicSubnetTemplate): seq<ValueRef> {
    [p.vpcLookup] + SubnetVpcIds(p.subnets) + RouteTableIds(p.natRoutes)
  }

  /** The values of the attachment template that may be imports. */
  function AttachmentRefs(t: AttachmentTemplate): seq<ValueRef> {
    [t.vpcLookup, t.attachment.vpcId] + t.attachment.subnetIds + SubnetVpcIds(t.subnets) + RouteTableIds(t.tgwRoutes)
  }

  /** Every export name the public-subnet and attachment templates import. */
  function DeployedImports(p: PublicSubnetTemplate, t: AttachmentTemplate): set<string> {
    ImportedNames(PublicRefs(p) + AttachmentRefs(t))
  }

  /** Each import among `vals` names one of `names`. */
  predicate ResolvedBy(vals: seq<ValueRef>, names: seq<string>) {
    forall k :: 0 <= k < |vals| ==> vals[k].ImportValue? ==> vals[k].exportName in names
  }

  lemma ResolvedByConcat(xs: seq<ValueRef>, ys: seq<ValueRef>, names: seq<string>)
    requires ResolvedBy(xs, names) && ResolvedBy(ys, names)
    ensures ResolvedBy(xs + ys, names)
  {
    forall k | 0 <= k < |xs + ys| && (xs + ys)[k].ImportValue?
      ensures (xs + ys)[k].exportName in names
    {
      if k >= |xs| {
        assert (xs + ys)[k] == ys[k - |xs|];
      }
    }
  }

  lemma ImportsNamed(vals: seq<ValueRef>, names: seq<string>)
    requires ResolvedBy(vals, names)
    ensures forall n :: n in ImportedNames(vals) ==> n in names
  {
  }

  lemma BaseExports(cfg: VpcConfiguration, region: string, b: BaseVpcTemplate)
    requires WellTyped(cfg) && BaseVpcStack(cfg, region) == Success(b)
    ensures BaseVpcIdExport in ExportNames(b.outputs)
    ensures forall i: AzIndex :: PrivateRouteTableExport(i) in ExportNames(b.outputs)
  {
    BaseShape(cfg, region, b);
    var names := ExportNames(b.outputs);
    assert names[0] == BaseVpcIdExport;
    assert names[2] == PrivateRouteTableExport(1);
    assert names[4] == PrivateRouteTableExport(2);
    assert names[6] == PrivateRouteTableExport(3);
  }

  lemma PublicResolved(vpc: Block, cfg: VpcConfiguration, region: string, enableNat: string,
                       p: PublicSubnetTemplate, names: seq<string>)
    requires WellTyped(cfg) && PublicSubnetStack(vpc, cfg, region, enableNat) == Success(p)
    requires BaseVpcIdExport in names && forall i: AzIndex :: PrivateRouteTableExport(i) in names
    ensures ResolvedBy(PublicRefs(p), names)
  {
    PublicShape(vpc, cfg, region, enableNat, p);
    var p1 := [p.vpcLookup];
    var p2 := SubnetVpcIds(p.subnets);
    var p3 := RouteTableIds(p.natRoutes);
    assert ResolvedBy(p1, names);
    assert ResolvedBy(p2, names);
    assert ResolvedBy(p3, names);
    ResolvedByConcat(p1, p2, names);
    ResolvedByConcat(p1 + p2, p3, names);
  }

  lemma AttachmentResolved(tgw: TgwConfiguration, busArn: string, v: Variant, vpc: Block, cfg: VpcConfiguration, region: string,
                           t: AttachmentTemplate, names: seq<string>)
    requires WellTyped(cfg) && AttachmentStack(tgw, busArn, v, vpc, cfg, region) == Success(Some(t))
    requires BaseVpcIdExport in names && forall i: AzIndex :: PrivateRouteTableExport(i) in names
    ensures ResolvedBy(AttachmentRefs(t), names)
  {
    AttachmentShape(tgw, busArn, v, vpc, cfg, region, t);
    var t1 := [t.vpcLookup, t.attachment.vpcId];
    var t2 := t.attachment.subnetIds;
    var t3 := SubnetVpcIds(t.subnets);
    var t4 := RouteTableIds(t.tgwRoutes);
    assert ResolvedBy(t1, names);
    assert ResolvedBy(t2, names);
    assert ResolvedBy(t3, names);
    assert ResolvedBy(t4, names);
    ResolvedByConcat(t1, t2, names);
    ResolvedByConcat(t1 + t2, t3, names);
    ResolvedByConcat(t1 + t2 + t3, t4, names);
  }

  /** Every value the two dependent templates import is exported by the base template. */
  lemma ImportsResolve(
    cfg: VpcConfiguration, region: string, tgw: TgwConfiguration, busArn: string, v: Variant, enableNat: string,
    b: BaseVpcTemplate, p: PublicSubnetTemplate, t: AttachmentTemplate)
    requires Deployed(cfg, region, tgw, busArn, v, enableNat, b, p, t)
    ensures forall n :: n in DeployedImports(p, t) ==> n in ExportNames(b.outputs)
  {
    var names := ExportNames(b.outputs);
    BaseExports(cfg, region, b);
    PublicResolved(b.vpcCidr, cfg, region, enableNat, p, names);
    AttachmentResolved(tgw, busArn, v, b.vpcCidr, cfg, region, t, names);
    ResolvedByConcat(PublicRefs(p), AttachmentRefs(t), names);
    ImportsNamed(PublicRefs(p) + AttachmentRefs(t), names);
  }

  // ---- export names ----

  /** The five families of names the consumer templates export. */
  datatype ExportKind = VpcIdExport | PrivateIdExport | PrivateTableExport | PublicIdExport | TgwIdExport

  function ExportName(kind: ExportKind, i: AzIndex): string {
    match kind
    case VpcIdExport => BaseVpcIdExport
    case PrivateIdExport => PrivateSubnetIdExport(i)
    case PrivateTableExport => PrivateRouteTableExport(i)
    case PublicIdExport => PublicSubnetIdExport(i)
    case TgwIdExport => TgwSubnetIdExport(i)
  }

  /** A zone number is written as its single digit. */
  lemma NumberedShape(prefix: string, i: AzIndex, suffix: string)
    ensures |Numbered(prefix, i, suffix)| == |prefix| + 1 + |suffix|
    ensures Numbered(prefix, i, suffix)[|prefix|] == Decimal.DigitChar(i)
  {
  }

  /** Two export names are equal only when they are the same name of the same zone. */
  lemma ExportNameInjective(k1: ExportKind, i1: AzIndex, k2: ExportKind, i2: AzIndex)
    ensures ExportName(k1, i1) == ExportName(k2, i2) <==> k1 == k2 && (k1 == VpcIdExport || i1 == i2)
  {
    NumberedShape("PrivateSubnet", i1, "Id");
    NumberedShape("PrivateSubnet", i2, "Id");
    NumberedShape("PrivateSubnet", i1, "RouteTableId");
    NumberedShape("PrivateSubnet", i2, "RouteTableId");
    NumberedShape("PublicSubnet", i1, "Id");
    NumberedShape("PublicSubnet", i2, "Id");
    NumberedShape("TransitGatewaySubnet", i1, "Id");
    NumberedShape("TransitGatewaySubnet", i2, "Id");
    if ExportName(k1, i1) == ExportName(k2, i2) && k1 != VpcIdExport {
      assert k1 == k2;
      var n := match k1
        case PrivateIdExport => 13
        case PrivateTableExport => 13
        case PublicIdExport => 12
        case TgwIdExport => 20
        case VpcIdExport => 0;
      assert ExportName(k1, i1)[n] == Decimal.DigitChar(i1);
      assert ExportName(k2, i2)[n] == Decimal.DigitChar(i2);
      assert Decimal.DigitValue(Decimal.DigitChar(i1)) == i1;
    }
  }

  /** The names the three templates export, in declaration order. */
  function DeployedExportNames(b: BaseVpcTemplate, p: PublicSubnetTemplate, t: AttachmentTemplate): seq<string> {
    ExportNames(b.outputs + p.outputs + t.outputs)
  }

  /** The kind and zone of the `k`-th name of `DeployedExportNames`, and back. */
  function KindAt(k: nat): ExportKind {
    if k == 0 then VpcIdExport
    else if k == 1 || k == 3 || k == 5 then PrivateIdExport
    else if k < 7 then PrivateTableExport
    else if k < 10 then PublicIdExport
    else TgwIdExport
  }

  function ExportZoneAt(k: nat): AzIndex
    requires k < 13
  {
    if k <= 2 then 1 else if k <= 4 then 2 else if k <= 6 then 3 else if k < 10 then k - 6 else k - 9
  }

  function PositionOf(kind: ExportKind, i: AzIndex): nat {
    match kind
    case VpcIdExport => 0
    case PrivateIdExport => 2 * i - 1
    case PrivateTableExport => 2 * i
    case PublicIdExport => i + 6
    case TgwIdExport => i + 9
  }

  lemma PositionOfAt(k: nat)
    requires k < 13
    ensures PositionOf(KindAt(k), ExportZoneAt(k)) == k
  {
  }

  lemma ExportAt(k: nat)
    requires k < 13
    ensures ConsumerExportNames()[k] == ExportName(KindAt(k), ExportZoneAt(k))
  {
  }

  /**
   * No export name is declared twice across the three templates, so
   * CloudFormation accepts all of them in one account and region.
   */
  lemma DeployedExportsDistinct(
    cfg: VpcConfiguration, region: string, tgw: TgwConfiguration, busArn: string, v: Variant, enableNat: string,
    b: BaseVpcTemplate, p: PublicSubnetTemplate, t: AttachmentTemplate)
    requires Deployed(cfg, region, tgw, busArn, v, enableNat, b, p, t)
    ensures forall j, k :: 0 <= j < k < |DeployedExportNames(b, p, t)| ==>
      DeployedExportNames(b, p, t)[j] != DeployedExportNames(b, p, t)[k]
  {
    DeployedExportNamesAre(cfg, region, tgw, busArn, v, enableNat, b, p, t);
    var names := DeployedExportNames(b, p, t);
    forall j, k | 0 <= j < k < |names|
      ensures names[j] != names[k]
    {
      ExportAt(j);
      ExportAt(k);
      PositionOfAt(j);
      PositionOfAt(k);
      ExportNameInjective(KindAt(j), ExportZoneAt(j), KindAt(k), ExportZoneAt(k));
    }
  }

  // ---- what the attachment construct reads ----

  /**
   * The attachment construct reads only the gateway id from its props: the
   * association and propagation route tables it is given do not reach the template.
   */
  lemma AttachmentIgnoresRouteTables(
    p1: AttachmentProps, p2: AttachmentProps, busArn: string, vpc: Block, cfg: VpcConfiguration, region: string)
    requires Valid(vpc) && vpc.len <= 21 && WellTyped(cfg)
    ensures TgwAttachment(p1, busArn, vpc, cfg, region) == TgwAttachment(p2, busArn, vpc, cfg, region)
        <==> p1.transitGatewayId == p2.transitGatewayId
  {
    if TgwAttachment(p1, busArn, vpc, cfg, region) == TgwAttachment(p2, busArn, vpc, cfg, region) {
      assert TgwAttachment(p1, busArn, vpc, cfg, region).attachment.transitGatewayId == p1.transitGatewayId;
    }
  }

  // ---- the NAT gate as synthesized ----

  /**
   * A parameter value read during synthesis: the CDK renders an unresolved
   * deploy-time value as a token string `${Token[...]}`.
   */
  predicate IsToken(s: string) {
    |s| >= 8 && s[..8] == "${Token["
  }

  /**
   * The public-subnet template as src/vpc_product.ts synthesizes it: the NAT gate
   * compares the parameter's synthesis-time token with `'true'`, whatever value
   * is chosen at deployment.
   */
  function PublicSubnetStackAsWritten(vpc: Block, cfg: VpcConfiguration, region: string, deployed: string, token: string)
    : (r: Result<PublicSubnetTemplate, CidrError>)
    requires WellTyped(cfg) && IsToken(token)
    ensures r.Success? <==> Valid(vpc) && vpc.len <= 21
  {
    PublicSubnetStack(vpc, cfg, region, token)
  }

  /** As written, no NAT gateway or NAT route is declared, even when `'true'` is chosen. */
  lemma AsWrittenNeverNat(vpc: Block, cfg: VpcConfiguration, region: string, deployed: string, token: string)
    requires WellTyped(cfg) && IsToken(token) && Valid(vpc) && vpc.len <= 21
    ensures PublicSubnetStackAsWritten(vpc, cfg, region, deployed, token).value.natGateways == []
    ensures PublicSubnetStackAsWritten(vpc, cfg, region, deployed, token).value.natRoutes == []
  {
    assert token[0] != NatEnabled[0];
  }

  /**
   * The discrepancy on one input: choosing `'true'` for a valid /20 yields three
   * NAT gateways in the intended template and none as written.
   */
  lemma NatGateWitness(vpc: Block, cfg: VpcConfiguration, region: string, token: string)
    requires WellTyped(cfg) && IsToken(token) && Valid(vpc) && vpc.len == 20
    ensures |PublicSubnetStack(vpc, cfg, region, "true").value.natGateways| == 3
    ensures |PublicSubnetStackAsWritten(vpc, cfg, region, "true", token).value.natGateways| == 0
  {
    AsWrittenNeverNat(vpc, cfg, region, "true", token);
  }
}
