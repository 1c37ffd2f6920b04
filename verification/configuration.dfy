/**
 * The deployment configuration shared by every stack (src/configuration.ts):
 * transit-gateway identifiers, test-environment sharing settings and the VPC
 * block with its availability-zone suffixes, together with the values the
 * repository ships.
 */
module Configuration {
  import opened Results

  /** Optional identifiers of the two gateways and their route tables (all `?: string` in the source). */
  datatype TgwConfiguration = TgwConfiguration(
    mainTransitGatewayId: Option<string>,
    mainTgwWorkloadRtId: Option<string>,
    mainTgwSharedRtId: Option<string>,
    migrateTransitGatewayId: Option<string>,
    migrateTgwWorkloadRtId: Option<string>,
    migrateTgwSharedRtId: Option<string>)

  /** Whether to share the gateways, and with which organisation or OU ids. */
  datatype TestEnvConfiguration = TestEnvConfiguration(
    tgwShare: bool,
    tgwSharingPrincipal: Option<seq<string>>)

  /** The VPC block in CIDR notation and the zone suffixes appended to the region. */
  datatype VpcConfiguration = VpcConfiguration(
    vpcCidr: string,
    availabilityZones: seq<string>)

  /** JavaScript truthiness of an optional string: present and non-empty. */
  predicate Truthy(s: Option<string>) {
    s.Some? && s.value != ""
  }

  /** The source types `AvailabilityZones` as a three-element tuple. */
  predicate WellTyped(v: VpcConfiguration) {
    |v.availabilityZones| == 3
  }

  const ShippedTgw := TgwConfiguration(Some(""), Some(""), Some(""), Some(""), Some(""), Some(""))

  const ShippedTestEnv := TestEnvConfiguration(true, Some([""]))

  const ShippedVpc := VpcConfiguration("10.0.0.0/20", ["a", "b", "c"])

  /** The ARN of the central event bus the attachment products forward to; shipped empty. */
  const EventBusArn := ""

  /** The organisation whose accounts may put events on the central bus and read the catalog's assets. */
  const OrganizationId := "o-zl069iyk6y"
}
