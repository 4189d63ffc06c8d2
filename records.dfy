/** The shapes of the EC2 API responses that the compliance checks read.
    Only the fields the checks look at are kept. A list field that the
    response may omit (and that the code reads with a default of `[]`) is a
    plain sequence here, with the empty sequence standing for "absent". */
module Records {

  datatype Option<+T> = None | Some(value: T)

  /** One entry of an instance's `Tags` list. */
  datatype Tag = Tag(key: string, value: string)

  /** One entry of a permission's `IpRanges` list. */
  datatype IpRange = IpRange(cidrIp: string)

  /** One inbound rule of a security group. `FromPort` and `ToPort` are
      absent for rules that cover every protocol. */
  datatype IpPermission = IpPermission(fromPort: Option<int>, toPort: Option<int>, ipRanges: seq<IpRange>)

  /** One entry of the `SecurityGroups` list that describing a group returns. */
  datatype SecurityGroup = SecurityGroup(groupId: string, ipPermissions: seq<IpPermission>)

  /** A group attached to an instance together with the `SecurityGroups`
      list that describing that group id returns. */
  datatype GroupBinding = GroupBinding(groupId: string, described: seq<SecurityGroup>)

  /** One instance of an inventory listing. `tags` is `None` when the
      instance has no `Tags` field at all. */
  datatype Instance = Instance(
    instanceId: string,
    state: string,
    tags: Option<seq<Tag>>,
    securityGroups: seq<GroupBinding>)

  /** One entry of the listing's `Reservations`. */
  datatype Reservation = Reservation(instances: seq<Instance>)

  /** The instance's tags, with a missing `Tags` field read as no tags. */
  function TagList(instance: Instance): seq<Tag>
  {
    match instance.tags
    case None => []
    case Some(tags) => tags
  }
}
