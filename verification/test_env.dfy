/**
 * The central network account of src/test-env.ts: two transit gateways
 * (`Main`, `Migrate`), each with a `Workload` and a `Shared` route table,
 * every id exported; the `Main` route-table ids also written to SSM; the
 * gateways optionally shared with the organisation through RAM; an event bus
 * that accepts PutEvents from the organisation and a rule that starts the
 * attachment-association state machine.
 */
module TestEnv {
  import opened Results
  import opened Resources
  import opened Configuration
  import opened EventPatterns
  import VpcProduct

  const GatewayNames: seq<string> := ["Main", "Migrate"]
  const RouteTableNames: seq<string> := ["Workload", "Shared"]
  const MainGateway := "Main"
  const Disable := "disable"

  datatype TransitGateway = TransitGateway(
    id: string,
    defaultRouteTableAssociation: string,
    defaultRouteTablePropagation: string,
    autoAcceptSharedAttachments: string,
    tags: seq<Tag>)

  datatype RouteTable = RouteTable(id: string, transitGatewayId: ValueRef, tags: seq<Tag>)

  datatype SsmParameter = SsmParameter(name: string, value: ValueRef)

  // ---- names ----

  function GatewayId(g: string): string { g + "TransitGateway" }
  function GatewayExport(g: string): string { g + "TransitGatewayId" }
  function RouteTableId(g: string, r: string): string { g + r + "RouteTable" }
  function RouteTableExport(g: string, r: string): string { g + r + "RouteTableId" }
  function ParameterName(r: string): string { r + "RouteTableId" }

  // ---- the gateway and route-table grid ----

  /** A gateway with default association, default propagation and auto-accept all disabled. */
  function Gateway(g: string): TransitGateway {
    TransitGateway(GatewayId(g), Disable, Disable, Disable, [Tag("Name", GatewayId(g))])
  }

  function Table(g: string, r: string): RouteTable {
    RouteTable(RouteTableId(g, r), Ref(GatewayId(g)), [Tag("Name", RouteTableId(g, r)), Tag("Type", r)])
  }

  /** The route tables the inner loop declares for gateway `g`, in order. */
  function Tables(g: string, rts: seq<string>): (ts: seq<RouteTable>)
    ensures |ts| == |rts|
  {
    seq(|rts|, k requires 0 <= k < |rts| => Table(g, rts[k]))
  }

  function GatewayOutput(g: string): Output {
    Output(GatewayExport(g), Ref(GatewayId(g)))
  }

  function TableOutput(g: string, r: string): Output {
    Output(RouteTableExport(g, r), Ref(RouteTableId(g, r)))
  }

  /** The outputs the inner loop declares for gateway `g`, in order. */
  function TableOutputs(g: string, rts: seq<string>): (os: seq<Output>)
    ensures |os| == |rts|
  {
    seq(|rts|, k requires 0 <= k < |rts| => TableOutput(g, rts[k]))
  }

  /** The parameter holding the id of the `Main` gateway's route table `r`. */
  function MainParameter(r: string): SsmParameter {
    SsmParameter(ParameterName(r), Ref(RouteTableId(MainGateway, r)))
  }

  /** The parameters the inner loop writes for gateway `g`: one per route table, for `Main` only. */
  function Parameters(g: string, rts: seq<string>): seq<SsmParameter> {
    if g == MainGateway then seq(|rts|, k requires 0 <= k < |rts| => MainParameter(rts[k])) else []
  }

  datatype Grid = Grid(
    gateways: seq<TransitGateway>,
    routeTables: seq<RouteTable>,
    outputs: seq<Output>,
    parameters: seq<SsmParameter>)

  /** The two nested `forEach` loops, in their declaration order. */
  function BuildGrid(gws: seq<string>, rts: seq<string>): (r: Grid)
    ensures |r.gateways| == |gws|
    ensures forall k :: 0 <= k < |gws| ==> r.gateways[k] == Gateway(gws[k])
  {
    if |gws| == 0 then Grid([], [], [], [])
    else
      var g := gws[0];
      var rest := BuildGrid(gws[1..], rts);
      Grid([Gateway(g)] + rest.gateways,
           Tables(g, rts) + rest.routeTables,
           [GatewayOutput(g)] + TableOutputs(g, rts) + rest.outputs,
           Parameters(g, rts) + rest.parameters)
  }

  lemma TablesMember(g: string, rts: seq<string>, t: RouteTable)
    ensures t in Tables(g, rts) <==> exists r :: r in rts && t == Table(g, r)
  {
    var ts := Tables(g, rts);
    if t in ts {
      var k :| 0 <= k < |ts| && ts[k] == t;
      assert rts[k] in rts;
    }
    if exists r :: r in rts && t == Table(g, r) {
      var r :| r in rts && t == Table(g, r);
      var k :| 0 <= k < |rts| && rts[k] == r;
      assert ts[k] == t;
    }
  }

  /** Every gateway/route-table pair gets exactly one table, and nothing else does. */
  lemma {:induction false} GridTables(gws: seq<string>, rts: seq<string>, t: RouteTable)
    ensures t in BuildGrid(gws, rts).routeTables <==> exists g, r :: g in gws && r in rts && t == Table(g, r)
  {
    if |gws| > 0 {
      GridTables(gws[1..], rts, t);
      TablesMember(gws[0], rts, t);
      assert BuildGrid(gws, rts).routeTables == Tables(gws[0], rts) + BuildGrid(gws[1..], rts).routeTables;
      if exists g, r :: g in gws && r in rts && t == Table(g, r) {
        var g, r :| g in gws && r in rts && t == Table(g, r);
        if g != gws[0] {
          assert g in gws[1..];
        }
      }
    }
  }

  lemma ParametersMember(g: string, rts: seq<string>, p: SsmParameter)
    ensures p in Parameters(g, rts) <==> g == MainGateway && exists r :: r in rts && p == MainParameter(r)
  {
    var ps := Parameters(g, rts);
    if p in ps {
      var k :| 0 <= k < |ps| && ps[k] == p;
      assert rts[k] in rts;
    }
    if g == MainGateway && exists r :: r in rts && p == MainParameter(r) {
      var r :| r in rts && p == MainParameter(r);
      var k :| 0 <= k < |rts| && rts[k] == r;
      assert ps[k] == p;
    }
  }

  /**
   * Parameters are written for the route tables of the `Main` gateway only:
   * one per route-table name, when `Main` is among the gateways.
   */
  lemma {:induction false} GridParameters(gws: seq<string>, rts: seq<string>, p: SsmParameter)
    ensures p in BuildGrid(gws, rts).parameters <==>
      MainGateway in gws && exists r :: r in rts && p == MainParameter(r)
  {
    if |gws| > 0 {
      GridParameters(gws[1..], rts, p);
      ParametersMember(gws[0], rts, p);
      assert BuildGrid(gws, rts).parameters == Parameters(gws[0], rts) + BuildGrid(gws[1..], rts).parameters;
      assert MainGateway in gws <==> gws[0] == MainGateway || MainGateway in gws[1..] by {
        assert gws == [gws[0]] + gws[1..];
      }
    }
  }

  /** The grid the stack declares. */
  function Environment(): Grid {
    BuildGrid(GatewayNames, RouteTableNames)
  }

  /** Both gateways are declared, in order, with default association, default propagation and
      auto-accept of shared attachments all disabled. */
  lemma EnvironmentGateways(gw: TransitGateway)
    ensures |Environment().gateways| == 2
    ensures Environment().gateways[0].id == GatewayId("Main") && Environment().gateways[1].id == GatewayId("Migrate")
    ensures gw in Environment().gateways ==>
      gw.defaultRouteTableAssociation == Disable && gw.defaultRouteTablePropagation == Disable &&
      gw.autoAcceptSharedAttachments == Disable
  {
  }

  /** Each route table belongs to one of the declared gateways and carries its role in a `Type` tag. */
  lemma EnvironmentTables(t: RouteTable)
    requires t in Environment().routeTables
    ensures exists g, r :: (g in GatewayNames && r in RouteTableNames
      && t.id == RouteTableId(g, r) && t.transitGatewayId == Ref(GatewayId(g))
      && t.tags == [Tag("Name", RouteTableId(g, r)), Tag("Type", r)])
  {
    GridTables(GatewayNames, RouteTableNames, t);
  }

  lemma TableOutputsOfTwo(g: string)
    ensures TableOutputs(g, RouteTableNames) == [TableOutput(g, "Workload"), TableOutput(g, "Shared")]
  {
  }

  /** The six outputs of the grid, in declaration order. */
  function GridOutputs(): seq<Output> {
    [GatewayOutput("Main"), TableOutput("Main", "Workload"), TableOutput("Main", "Shared"),
     GatewayOutput("Migrate"), TableOutput("Migrate", "Workload"), TableOutput("Migrate", "Shared")]
  }

  lemma GridOfOne(g: string)
    ensures BuildGrid([g], RouteTableNames).outputs == [GatewayOutput(g)] + TableOutputs(g, RouteTableNames)
  {
    assert [g][1..] == [];
  }

  lemma EnvironmentUnfolded()
    ensures Environment().outputs
      == [GatewayOutput("Main")] + TableOutputs("Main", RouteTableNames) + BuildGrid(["Migrate"], RouteTableNames).outputs
  {
    assert GatewayNames[1..] == ["Migrate"];
  }

  lemma EnvironmentOutputs()
    ensures Environment().outputs == GridOutputs()
  {
    EnvironmentUnfolded();
    TableOutputsOfTwo("Main");
    TableOutputsOfTwo("Migrate");
    GridOfOne("Migrate");
  }

  lemma GridOutputNames()
    ensures ExportNames(GridOutputs()) == GridExportNames()
  {
  }

  /** The six export names of the grid, in declaration order. */
  function GridExportNames(): seq<string> {
    [GatewayExport("Main"), RouteTableExport("Main", "Workload"), RouteTableExport("Main", "Shared"),
     GatewayExport("Migrate"), RouteTableExport("Migrate", "Workload"), RouteTableExport("Migrate", "Shared")]
  }

  lemma GridExportNamesDistinct()
    ensures Distinct(GridExportNames())
  {
    var names := GridExportNames();
    assert |names[0]| == 20 && |names[1]| == 24 && |names[2]| == 22;
    assert |names[3]| == 23 && |names[4]| == 27 && |names[5]| == 25;
    LengthsDistinct(names);
  }

  /** The central stack exports the gateway and route-table ids under six names, no two equal. */
  lemma EnvironmentExports()
    ensures ExportNames(Environment().outputs) == GridExportNames()
    ensures Distinct(ExportNames(Environment().outputs))
  {
    EnvironmentOutputs();
    GridOutputNames();
    GridExportNamesDistinct();
  }

  // ---- sharing with the organisation ----

  datatype ResourceShare = ResourceShare(name: string, resourceArns: seq<string>, principals: seq<string>)

  const ShareName := "TransitGatewayShare"

  function GatewayArn(region: string, account: string, gatewayRef: string): string {
    "arn:aws:ec2:" + region + ":" + account + ":transit-gateway/" + gatewayRef
  }

  function OrganizationPrefix(account: string): string {
    "arn:aws:organizations::" + account + ":organization/"
  }

  function PrincipalArn(account: string, principal: string): string {
    OrganizationPrefix(account) + principal
  }

  /** The principal an organisation ARN names, read back from the ARN. */
  function PrincipalOf(account: string, arn: string): (r: Option<string>)
    ensures r.Some? ==> PrincipalArn(account, r.value) == arn
  {
    var prefix := OrganizationPrefix(account);
    if |prefix| <= |arn| && arn[..|prefix|] == prefix then
      assert arn == prefix + arn[|prefix|..];
      Some(arn[|prefix|..])
    else None
  }

  /** Reading the principal back from its ARN gives the principal. */
  lemma PrincipalOfArn(account: string, principal: string)
    ensures PrincipalOf(account, PrincipalArn(account, principal)) == Some(principal)
  {
    var prefix := OrganizationPrefix(account);
    var arn := PrincipalArn(account, principal);
    assert arn[..|prefix|] == prefix;
    assert arn[|prefix|..] == principal;
  }

  /**
   * The RAM share of the gateways, declared when sharing is on and a principal
   * list is present (any present list, even an empty one, passes the check).
   * `deployedId` gives the deploy-time id (`tgw.ref`) of the gateway with a
   * logical id; the share lists the declared gateways in declaration order.
   */
  function Share(cfg: TestEnvConfiguration, region: string, account: string, deployedId: string -> string)
    : (r: Option<ResourceShare>)
    ensures r.Some? <==> cfg.tgwShare && cfg.tgwSharingPrincipal.Some?
    ensures r.Some? ==>
      && r.value.name == ShareName
      && r.value.resourceArns == [GatewayArn(region, account, deployedId(GatewayId("Main"))),
                                  GatewayArn(region, account, deployedId(GatewayId("Migrate")))]
      && |r.value.principals| == |cfg.tgwSharingPrincipal.value|
      && (forall k :: 0 <= k < |r.value.principals| ==>
            PrincipalOf(account, r.value.principals[k]) == Some(cfg.tgwSharingPrincipal.value[k]))
  {
    if cfg.tgwShare && cfg.tgwSharingPrincipal.Some? then
      var gws := Environment().gateways;
      var ps := cfg.tgwSharingPrincipal.value;
      EnvironmentGateways(gws[0]);
      var arns := seq(|gws|, k requires 0 <= k < |gws| => GatewayArn(region, account, deployedId(gws[k].id)));
      var principals := seq(|ps|, k requires 0 <= k < |ps| => PrincipalArn(account, ps[k]));
      assert forall k :: 0 <= k < |ps| ==> PrincipalOf(account, principals[k]) == Some(ps[k]) by {
        forall k | 0 <= k < |ps| ensures PrincipalOf(account, principals[k]) == Some(ps[k]) {
          PrincipalOfArn(account, ps[k]);
        }
      }
      Some(ResourceShare(ShareName, arns, principals))
    else None
  }

  /** The share names each declared gateway once: two different gateways give two different ARNs. */
  lemma ShareArnsDistinct(region: string, account: string, deployedId: string -> string)
    requires deployedId(GatewayId("Main")) != deployedId(GatewayId("Migrate"))
    ensures GatewayArn(region, account, deployedId(GatewayId("Main")))
      != GatewayArn(region, account, deployedId(GatewayId("Migrate")))
  {
    var prefix := "arn:aws:ec2:" + region + ":" + account + ":transit-gateway/";
    var a := GatewayArn(region, account, deployedId(GatewayId("Main")));
    var b := GatewayArn(region, account, deployedId(GatewayId("Migrate")));
    assert a == prefix + deployedId(GatewayId("Main"));
    assert b == prefix + deployedId(GatewayId("Migrate"));
    assert a[|prefix|..] == deployedId(GatewayId("Main"));
    assert b[|prefix|..] == deployedId(GatewayId("Migrate"));
  }

  // ---- the event bus and its policy ----

  datatype Effect = Allow | Deny

  /** A resource-policy statement open to any principal under one `StringEquals` condition on the caller's organisation. */
  datatype PolicyStatement = PolicyStatement(sid: string, actions: seq<string>, effect: Effect, principalOrgId: string)

  /** A call on the bus: the action and the organisation of the calling account, if it has one. */
  datatype Request = Request(action: string, principalOrgId: Option<string>)

  predicate Allows(st: PolicyStatement, req: Request) {
    st.effect == Allow && req.action in st.actions && req.principalOrgId == Some(st.principalOrgId)
  }

  const PutEvents := "events:PutEvents"

  const BusPolicy := PolicyStatement("PutEvents", [PutEvents], Allow, OrganizationId)

  /** The bus accepts exactly PutEvents calls from accounts of the organisation. */
  lemma BusPolicyAllows(req: Request)
    ensures Allows(BusPolicy, req) <==> req.action == "events:PutEvents" && req.principalOrgId == Some("o-zl069iyk6y")
  {
  }

  // ---- the state machine's role and trigger ----

  const StateMachineActions: seq<string> := [
    "ec2:DisassociateTransitGatewayRouteTable",
    "ec2:ModifyTransitGatewayVpcAttachment",
    "ec2:DisableTransitGatewayRouteTablePropagation",
    "ec2:DescribeTransitGatewayRouteTables",
    "ec2:AssociateTransitGatewayRouteTable",
    "ec2:AcceptTransitGatewayVpcAttachment",
    "ec2:DescribeTransitGatewayVpcAttachments",
    "ec2:EnableTransitGatewayRouteTablePropagation",
    "ssm:GetParameter"]

  /**
   * The role grants nine distinct actions: accepting and modifying attachments,
   * moving them between route tables, toggling propagation, and reading the
   * SSM parameters the stack writes.
   */
  lemma StateMachineActionsDistinct()
    ensures forall j, k :: 0 <= j < k < |StateMachineActions| ==> StateMachineActions[j] != StateMachineActions[k]
    ensures |set a | a in StateMachineActions| == |StateMachineActions| == 9
    ensures "ssm:GetParameter" in StateMachineActions
    ensures "ec2:AcceptTransitGatewayVpcAttachment" in StateMachineActions
  {
    var s := StateMachineActions;
    assert Distinct(s[8..]);
    assert Distinct(s[7..]) by { assert |s[7]| != |s[8]|; }
    assert Distinct(s[6..]) by { assert |s[6]| != |s[7]| && |s[6]| != |s[8]|; }
    assert Distinct(s[5..]);
    assert Distinct(s[4..]) by { assert s[4][5] != s[5][5]; }
    assert Distinct(s[3..]) by { assert s[3][4] != s[4][4] && s[3][4] != s[5][4]; }
    assert Distinct(s[2..]);
    assert Distinct(s[1..]) by { assert s[1][4] != s[3][4] && s[1][4] != s[4][4] && s[1][4] != s[5][4]; }
    assert Distinct(s) by { assert s[0][5] != s[6][5]; }
    DistinctPairwise(s);
    DistinctCardinality(s);
  }

  /** The central rule: EC2 events of attachment creation, whatever their detail type. */
  const CentralPattern := EventPattern([Ec2Source], None, [CreateAttachmentEvent])

  lemma CentralMatches(e: Event)
    ensures Matches(CentralPattern, e) <==>
      e.source == "aws.ec2" && e.eventName == Some("CreateTransitGatewayVpcAttachment")
  {
  }

  /** Every event a consumer account forwards matches the central rule. */
  lemma ForwardedEventsMatch(e: Event)
    ensures Matches(VpcProduct.AttachmentCreatedPattern, e) ==> Matches(CentralPattern, e)
  {
  }

  /** The central rule is wider: it also matches attachment events that did not come from CloudTrail. */
  lemma CentralRuleWider()
    ensures
      var e := Event("aws.ec2", "EC2 Event", Some("CreateTransitGatewayVpcAttachment"));
      Matches(CentralPattern, e) && !Matches(VpcProduct.AttachmentCreatedPattern, e)
  {
    var e := Event("aws.ec2", "EC2 Event", Some("CreateTransitGatewayVpcAttachment"));
    assert e.detailType != CloudTrailDetailType by {
      assert |e.detailType| != |CloudTrailDetailType|;
    }
  }

  /**
   * End to end: an event forwarded from a consumer account starts the state
   * machine exactly when it is the CloudTrail record of an attachment being
   * created and the sending account belongs to the organisation.
   */
  predicate StartsStateMachine(e: Event, senderOrg: Option<string>) {
    && Matches(VpcProduct.AttachmentCreatedPattern, e)
    && Allows(BusPolicy, Request(PutEvents, senderOrg))
    && Matches(CentralPattern, e)
  }

  lemma StartsStateMachineIff(e: Event, senderOrg: Option<string>)
    ensures StartsStateMachine(e, senderOrg) <==>
      && e.source == "aws.ec2" && e.detailType == "AWS API Call via CloudTrail"
      && e.eventName == Some("CreateTransitGatewayVpcAttachment")
      && senderOrg == Some("o-zl069iyk6y")
  {
    VpcProduct.AttachmentCreatedMatches(e);
    BusPolicyAllows(Request(PutEvents, senderOrg));
  }
}
