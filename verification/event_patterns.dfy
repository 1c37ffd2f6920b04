/**
 * EventBridge event patterns as the two rules of this system use them: a
 * pattern lists allowed values per field; an event matches when each listed
 * field of the event equals one of the allowed values exactly (case-sensitive
 * string equality); a field the pattern does not mention is unconstrained.
 */
module EventPatterns {
  import opened Results

  /** The fields the rules inspect: `source`, `detail-type` and `detail.eventName` (absent in some events). */
  datatype Event = Event(source: string, detailType: string, eventName: Option<string>)

  datatype EventPattern = EventPattern(
    source: seq<string>,
    detailType: Option<seq<string>>,
    eventName: seq<string>)

  predicate Matches(p: EventPattern, e: Event) {
    && e.source in p.source
    && (p.detailType.Some? ==> e.detailType in p.detailType.value)
    && e.eventName.Some? && e.eventName.value in p.eventName
  }

  const Ec2Source := "aws.ec2"
  const CloudTrailDetailType := "AWS API Call via CloudTrail"
  const CreateAttachmentEvent := "CreateTransitGatewayVpcAttachment"
}
