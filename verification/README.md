# Network automation with Service Catalog: a Dafny model

The repository builds a self-service network for AWS Organizations with the
CDK. A central network account owns two transit gateways, `Main` and
`Migrate`. Each gateway has a `Workload` and a `Shared` route table. The
account also holds an event bus and a state machine that associates new VPC
attachments. Consumer accounts provision up to three Service Catalog products
into their own VPC:

- a base VPC with three private subnets;
- three public subnets, with optional NAT gateways;
- a transit-gateway attachment in three small subnets.

The products find each other only through CloudFormation exports. Each one
re-derives its subnet blocks from the VPC block by a fixed split:

- private subnets are /24 children 0..2 of an eight-way split of the VPC;
- public subnets are children 3..5 of the same split;
- transit-gateway subnets are /27 children 0..2 of an eight-way split of child 6.

The model covers:

- the address plan, on CIDR blocks (section 3.1 of RFC 4632), with the
  documented semantics of the `Fn::Cidr` and `Fn::Select` intrinsics;
- the three consumer templates as pure functions of the configuration, the
  region and the VPC block;
- the central stack's gateway/route-table grid, RAM share, bus policy, role
  actions and rule;
- the portfolio the catalog stack assembles;
- the shipped configuration run through all of the above.

Modules, lowest first:

| module | file | what it holds |
|---|---|---|
| `Results` | results.dfy | `Option` and `Result` |
| `Decimal`, `Text` | decimal.dfy, text.dfy | decimal numerals and split/join, for CIDR notation |
| `Arith` | arith.dfy | powers of two and alignment facts |
| `Ipv4` | ipv4.dfy | blocks, containment, disjointness; parsing and printing CIDR notation |
| `Intrinsics` | intrinsics.dfy | `Fn::Cidr` and `Fn::Select`, with their failure cases |
| `Configuration` | configuration.dfy | the configuration records, JavaScript truthiness, and the shipped values |
| `AddressPlan` | address_plan.dfy | the subnet split of src/vpc_product.ts |
| `EventPatterns`, `Resources` | event_patterns.dfy, resources.dfy | EventBridge matching; outputs, imports, tags |
| `VpcProduct` | vpc_product.dfy | the three consumer templates and the properties of one account's deployment |
| `TestEnv` | test_env.dfy | the central network account |
| `ServiceCatalog` | service_catalog.dfy | the portfolio |
| `Shipped` | shipped.dfy | the shipped configuration evaluated |

Two facts about the split are worth stating directly:

- **Size of the split children.** The third argument of `Fn::Cidr` counts
  host bits, so `'8'` gives /24 children. The reserved segment of the shipped
  10.0.0.0/20 is therefore 10.0.6.0/24, and its /27 children are
  10.0.6.0/27, 10.0.6.32/27 and 10.0.6.64/27 (`Shipped.ShippedSubnets`).
- **Coverage of the eight /24s.** Eight /24s hold 2048 addresses, the first
  half of a /20. `Intrinsics.CidrCovers` states what the children cover in
  general: the first count·2^hostBits addresses of the parent. The /27 split
  of the reserved /24 fits exactly, so its children tile the segment
  (`Intrinsics.CidrTiles`, `AddressPlan.TgwSegmentTiled`).

The VPC's block is the one EC2 creates from the configured text. EC2 clears
any host bits (10.0.0.5/20 becomes 10.0.0.0/20) and refuses prefixes outside
/16 to /28. The subnets then split the block EC2 reports back.

The attachment's forwarding rule names the central bus by ARN
(src/configuration.ts:20). The CDK splits a literal ARN during synthesis and
refuses text that does not start with `arn:` or lacks a partition, service or
resource component. The shipped ARN is empty, so any attachment variant that
is configured fails synthesis (`Shipped.ShippedBusArnRejected`). The catalog
stack constructs those attachment stacks itself, so its own synthesis fails
too (`ServiceCatalog.Catalog`, `Shipped.ConfiguredMainStopsCatalog`).

With NAT enabled, the public-subnet and attachment templates both add a
default route to each private route table. EC2 refuses a second route to the
same destination in one table, so the two cannot both be deployed
(`VpcProduct.NatConflictsWithAttachment`).

## Model

| member | source | states |
|---|---|---|
| AddressPlan.SelectChild | src/vpc_product.ts:29 | `Fn.select(i, Fn.cidr(p, n, h))` succeeds exactly when the split fits and i < n, and then yields child i of the split |
| AddressPlan.VpcSplitFits | src/vpc_product.ts:29 | eight /24 children fit in the VPC block exactly when it is a network block of prefix /21 or shorter |
| AddressPlan.PrivateSubnetCidr | src/vpc_product.ts:26-29 | private subnet i is the /24 at offset (i-1)·256 of the VPC; it fails exactly when the VPC is malformed or longer than /21 |
| AddressPlan.PublicSubnetCidr | src/vpc_product.ts:72-77 | public subnet i is the /24 at offset (i+2)·256, with the same failure condition |
| AddressPlan.TgwSegmentCidr | src/vpc_product.ts:158-161 | the reserved segment is the seventh /24, at offset 1536 |
| AddressPlan.TgwSplitFits | src/vpc_product.ts:164 | eight /27s always fit in, and exactly fill, a /24 network block |
| AddressPlan.TgwSubnetCidr | src/vpc_product.ts:155-164 | transit-gateway subnet i is the /27 at offset 1536 + (i-1)·32, with the same failure condition as the VPC split |
| AddressPlan.TgwSegmentTiled | src/vpc_product.ts:161-164 | the eight /27s of the segment hold exactly the segment's addresses |
| AddressPlan.TgwSubnetDirect | src/vpc_product.ts:158-164 | splitting twice agrees with splitting once: subnet i is child 48+(i-1) of a direct split of the VPC into sixty-four /27s, failures included |
| AddressPlan.SubnetWithinVpc | src/vpc_product.ts:29 | every planned subnet of every tier and zone is a network block inside the VPC |
| AddressPlan.SubnetsDisjoint | src/vpc_product.ts:161-164 | any two different (tier, zone) subnets share no address |
| Intrinsics.Cidr | src/vpc_product.ts:29 | `Fn::Cidr` succeeds exactly when the block is a network block, the count is in 1..256 and the children fit; it then lists `count` children |
| Intrinsics.Select | src/vpc_product.ts:77 | `Fn::Select` yields element `index` and fails past the end |
| Intrinsics.CidrChildrenWithin | src/vpc_product.ts:29 | each child is a network block of prefix 32 - hostBits inside the parent |
| Intrinsics.CidrChildrenDisjoint | src/vpc_product.ts:29 | no two children of a split share an address |
| Intrinsics.CidrCovers | src/vpc_product.ts:72 | the children hold exactly the first count·2^hostBits addresses of the parent |
| Intrinsics.CidrTiles | src/vpc_product.ts:164 | when count·2^hostBits equals the parent's size, the children hold exactly the parent's addresses |
| Ipv4.ParseFormat | src/configuration.ts:16 | printing a block in CIDR notation and reading it back gives the block |
| Ipv4.FormatParse | src/configuration.ts:16 | text the parser accepts is already canonical: printing its block gives the text back |
| Ipv4.Canonical | src/vpc_product.ts:29 | the block with host bits cleared is a network block of the same length holding the original address |
| Ipv4.CanonicalUnique | src/vpc_product.ts:29 | it is the only network block of that length holding the address |
| VpcProduct.BaseVpcStack | src/vpc_product.ts:12-44 | the base template exists exactly when the configured text parses to a block of prefix /16 to /21; a malformed text or a prefix outside /16../28 fails before any split; the VPC is the parsed block with its host bits cleared, and it has three private subnets |
| VpcProduct.UnalignedVpcAccepted | src/vpc_product.ts:16-29 | the text 10.0.0.5/20 is accepted, and the VPC the subnets split is 10.0.0.0/20 |
| VpcProduct.WideVpcRefused | src/vpc_product.ts:16-19 | the text 10.0.0.0/8 is refused as outside EC2's VPC prefix range |
| VpcProduct.PublicSubnetStack | src/vpc_product.ts:46-99 | (corrected gate, see ## Findings) the public template exists exactly when the looked-up block admits the split; it has three subnets, and three NAT gateways and routes exactly when the deployed EnableNAT value is `'true'`, otherwise none |
| VpcProduct.AttachmentPropsFor | src/vpc_product.ts:101-128 | a variant passes props exactly when its gateway id and both route-table ids are truthy; both variants associate with the Workload table and propagate to the Shared table |
| VpcProduct.AttachmentStack | src/vpc_product.ts:101-205 | without props the stack declares nothing and cannot fail, whatever the bus ARN; with props it fails with `BusArnRejected` exactly when the bus ARN is not one the CDK can split, and succeeds exactly when the ARN can be split and the looked-up block admits the split, declaring an attachment to the variant's gateway whose rule forwards to that bus |
| VpcProduct.ArnShapedOf | src/vpc_product.ts:187 | every ARN `arn:partition:service:region:account:resource` built from colon-free components with a partition, service and resource passes the CDK's ARN check, and the empty text does not |
| VpcProduct.AttachmentCreatedMatches | src/vpc_product.ts:179-188 | the forwarding rule matches exactly EC2's CloudTrail record of CreateTransitGatewayVpcAttachment |
| VpcProduct.DeployedSubnetsDisjoint | src/vpc_product.ts:26-177 | in one account's deployment, the nine subnets of the three templates are network blocks inside the VPC, pairwise disjoint |
| VpcProduct.NatRoutesPairZones | src/vpc_product.ts:74-96 | zone i is the same availability zone in every tier; NAT route i targets the NAT gateway in public subnet i and imports the route table the base template exports for private subnet i |
| VpcProduct.NatConflictsWithAttachment | src/vpc_product.ts:91-204 | with NAT enabled, the NAT route and the transit-gateway route of each zone put the same default destination, with different targets, into the same imported private route table |
| VpcProduct.TgwRoutesUsePrivateTables | src/vpc_product.ts:191-205 | the attachment spans exactly the three transit-gateway subnets; route i imports the route table of private subnet i and targets the variant's gateway |
| VpcProduct.ImportsResolve | src/vpc_product.ts:21-41 | every export name the public and attachment templates import is exported by the base template |
| VpcProduct.DeployedExportNamesAre | src/vpc_product.ts:21-176 | the three templates export thirteen names: BaseVPCId, then the private, public and transit-gateway subnet names, zone by zone |
| VpcProduct.ExportNameInjective | src/vpc_product.ts:33-41 | two export names are equal exactly when they are the same family and the same zone |
| VpcProduct.DeployedExportsDistinct | src/vpc_product.ts:21-176 | no export name is declared twice across the three templates |
| VpcProduct.AttachmentIgnoresRouteTables | src/vpc_product.ts:136-207 | two props give the same attachment template exactly when their gateway ids are equal: the route-table ids are never read |
| VpcProduct.PublicSubnetStackAsWritten | src/vpc_product.ts:86 | the public template as synthesized, gated on the parameter's synthesis-time token; it exists under the same condition as the corrected one |
| VpcProduct.AsWrittenNeverNat | src/vpc_product.ts:86-96 | as synthesized, no NAT gateway or NAT route is ever declared, whatever value is chosen at deployment |
| VpcProduct.NatGateWitness | src/vpc_product.ts:50-96 | for a /20 with `'true'` chosen, the corrected template declares three NAT gateways and the as-written one declares none |
| TestEnv.BuildGrid | src/test-env.ts:28-35 | one gateway per name, in order, each built by the single gateway definition |
| TestEnv.GridTables | src/test-env.ts:42-54 | a route table is declared exactly when it is the table of some (gateway, role) pair |
| TestEnv.GridParameters | src/test-env.ts:56-61 | an SSM parameter is written exactly for each route table of the `Main` gateway |
| TestEnv.EnvironmentGateways | src/test-env.ts:24-34 | the two gateways are `Main` then `Migrate`, with default association, default propagation and auto-accept disabled |
| TestEnv.EnvironmentTables | src/test-env.ts:42-49 | each route table is the table of one declared gateway and one role: its id is `${g}${r}RouteTable`, it references gateway g, and its tags are that name and `Type` = r |
| TestEnv.EnvironmentExports | src/test-env.ts:37-54 | the grid exports six names, the gateway and route-table ids, no two equal |
| TestEnv.PrincipalOf | src/test-env.ts:71-72 | a principal read back from an ARN reproduces that ARN |
| TestEnv.PrincipalOfArn | src/test-env.ts:71-72 | the organisation ARN of a principal reads back as that principal |
| TestEnv.Share | src/test-env.ts:67-74 | the share exists exactly when sharing is on and a principal list is present; its resource ARNs are those of the `Main` and then the `Migrate` gateway, and it has one organisation ARN per principal, each reading back as that principal |
| TestEnv.ShareArnsDistinct | src/test-env.ts:70 | gateways with different deploy-time ids give different resource ARNs |
| TestEnv.BusPolicyAllows | src/test-env.ts:81-94 | the bus accepts a request exactly when it is `events:PutEvents` from organisation o-zl069iyk6y |
| TestEnv.StateMachineActionsDistinct | src/test-env.ts:100-116 | the role holds nine pairwise different actions, among them accepting attachments and reading SSM parameters |
| TestEnv.CentralMatches | src/test-env.ts:127-137 | the central rule matches exactly EC2 events named CreateTransitGatewayVpcAttachment, whatever their detail type |
| TestEnv.ForwardedEventsMatch | src/test-env.ts:130-135 | every event a consumer forwards matches the central rule |
| TestEnv.CentralRuleWider | src/test-env.ts:130-135 | the central rule also matches an attachment event that is not a CloudTrail record |
| TestEnv.StartsStateMachineIff | src/test-env.ts:81-137 | a forwarded event starts the state machine exactly when it is the CloudTrail attachment record and the sender is in organisation o-zl069iyk6y |
| ServiceCatalog.Assembled | src/service_catalog.ts:36-116 | the portfolio has two or three products, the base and public-subnet products first |
| ServiceCatalog.Catalog | src/service_catalog.ts:84-108 | synthesis fails, with `BusArnRejected`, exactly when the bus ARN cannot be split and some variant passes props to the attachment construct the catalog builds; otherwise it yields the assembled portfolio |
| ServiceCatalog.CatalogFailsWithStack | src/service_catalog.ts:84-108 | the catalog fails exactly when the attachment stack of some offered variant is rejected for its bus ARN |
| ServiceCatalog.AttachmentVersionsOffered | src/service_catalog.ts:82-108 | a variant's version is offered exactly when its gateway id is truthy; `main_v1` precedes `migrate_v1` |
| ServiceCatalog.AttachmentProductOffered | src/service_catalog.ts:110-116 | the attachment product is added exactly when some gateway id is truthy, and it holds the offered versions |
| ServiceCatalog.VersionsLocked | src/service_catalog.ts:42-108 | every version of every product is locked and validates its template |
| ServiceCatalog.BuiltIsOffered | src/service_catalog.ts:84-108 | a variant whose attachment stack builds anything has its version in the catalog |
| ServiceCatalog.OfferedBuildsIff | src/service_catalog.ts:84-108 | an offered version passes props to the attachment construct exactly when both of its route-table ids are truthy too, and builds an attachment exactly when, in addition, the bus ARN can be split and the VPC block admits the split |
| ServiceCatalog.OfferedButEmpty | src/vpc_product.ts:105 | with the main gateway set and its tables empty, `main_v1` is offered yet declares nothing |
| Shipped.ShippedVpcParses | src/configuration.ts:15-18 | the shipped block reads as 10.0.0.0/20 and the base template accepts it |
| Shipped.ShippedSubnetBlocks | src/configuration.ts:16 | the nine subnet blocks of the shipped VPC, as addresses and prefix lengths |
| Shipped.ShippedSubnets | src/configuration.ts:16 | in CIDR notation: 10.0.0-2.0/24 private, 10.0.3-5.0/24 public, and 10.0.6.0/27, 10.0.6.32/27, 10.0.6.64/27 for the transit gateway |
| Shipped.ShippedCatalog | src/configuration.ts:1-8 | with every gateway id empty, the catalog synthesizes despite the empty bus ARN, only the two base products are offered, and neither attachment stack declares anything |
| Shipped.ConfiguredMainStopsCatalog | src/configuration.ts:1-20 | with the main gateway and its two route tables filled in and the shipped empty bus ARN, the catalog fails to synthesize |
| Shipped.ShippedBusArnRejected | src/configuration.ts:20 | with the shipped empty bus ARN, every attachment variant whose gateway and route tables are filled in fails synthesis, whatever the VPC block |
| Shipped.ShippedShare | src/configuration.ts:10-13 | the shipped `['']` passes the share gate, so the share names one organisation ARN with an empty id |

## Left out

- The `describeVpcs` custom resource (src/vpc_product.ts:57-69, 140-152) is not modelled. The VPC block it returns is a parameter of the public and attachment templates; `VpcProduct.Deployed` ties it to the base template's block.
- Region and account are opaque string parameters, since they are known only at deployment. The gateways' deploy-time ids come from a function of their logical ids.
- Resource creation itself is not modelled: the VPC's `Name` tag, the custom resources' IAM policies, the S3 asset bucket and its read grant, the state machine's type and the role's trust principal. The model keeps only the values other resources or accounts depend on.
- src/state_machine.json is not part of this model. Neither is what the state machine does with an attachment.
- EventBridge, IAM and RAM are modelled only as far as the rules and policies here use them: exact-match patterns, and one `StringEquals` condition on the caller's organisation.
- src/pipeline.ts, src/main.ts and test/main.test.ts are wiring and a smoke test, so they are not modelled.
- `Fn.cidr`'s host-bit argument is a number here rather than the strings `'8'` and `'5'`.
- The EC2 limits on subnet sizes (/16 to /28) are not checked. Every block the plan yields for an accepted VPC is a /24 or a /27.
- VpcProduct.Zone: has no contract. It is the string concatenation of the region and a zone suffix, and CloudFormation resolves the zone at deployment.
- VpcProduct.PublicSubnetStackAsWritten: the synthesis-time token is a parameter that satisfies `IsToken`; the CDK's token encoding is not modelled further. The value chosen at deployment (`deployed`) is accepted and, as in the source, never consulted.
- VpcProduct.Deployed: describes what the three templates declare, not whether EC2 accepts them together. With NAT enabled and an attachment, the duplicate default routes would fail whichever template is deployed second.
- VpcProduct.ArnShaped: follows the CDK's check of a literal ARN's components. What `fromEventBusArn` then does with the resource part, the bus name after `/`, is not modelled.
- TestEnv.BuildGrid: its contract fixes only the gateways. The route tables, outputs and parameters are characterised by `GridTables`, `GridParameters` and `EnvironmentExports`.
- ServiceCatalog.Assembled: the product-stack history and the asset-bucket plumbing are reduced to each version's name, stack, lock flag and validation flag.

## Findings

| source | as written | input that shows it | evidently intended | confidence | as-written member | corrected member |
|---|---|---|---|---|---|---|
| src/vpc_product.ts:86 | `enableNat.valueAsString === 'true'` compares the parameter's synthesis-time token with `'true'`, so the branch is never taken when the template is synthesized | EnableNAT = `'true'` chosen at provisioning, VPC 10.0.0.0/20: three NAT gateways and three default routes are intended, none are declared | declare the NAT gateways and routes when the provisioned value is `'true'` (in CloudFormation, a condition on the parameter). Corrected, the NAT routes then collide with the attachment's default routes in the same private route tables (`VpcProduct.NatConflictsWithAttachment`), so NAT and the attachment remain mutually exclusive in one VPC | high; not executed | VpcProduct.PublicSubnetStackAsWritten | VpcProduct.PublicSubnetStack |
