/** The three compliance rules evaluated for each instance, and the lookup of
    the instance's responsible contact. */
module Checks {
  import opened Records

  const BUSINESS_UNIT := "Business Unit"
  const ITSO_EMAIL := "ITSO Email"
  const REQUIRED_TAGS: set<string> := {BUSINESS_UNIT, ITSO_EMAIL}
  const RDP_PORT := 3389
  const OPEN_CIDR := "0.0.0.0/0"
  const STOPPED := "stopped"
  const PRODUCTION := "production"
  const NOT_AVAILABLE := "N/A"

  predicate HasKey(tags: seq<Tag>, key: string)
  {
    exists i | 0 <= i < |tags| :: tags[i].key == key
  }

  predicate HasValue(tags: seq<Tag>, value: string)
  {
    exists i | 0 <= i < |tags| :: tags[i].value == value
  }

  // ---------------------------------------------------------------------
  // Required tags

  /** The required tag keys that the instance does not carry. */
  function MissingTags(instance: Instance): (missing: set<string>)
    ensures missing <= REQUIRED_TAGS
    ensures forall key :: key in missing <==> key in REQUIRED_TAGS && !HasKey(TagList(instance), key)
    ensures missing == {} <==> HasKey(TagList(instance), BUSINESS_UNIT) && HasKey(TagList(instance), ITSO_EMAIL)
  {
    var present := set tag | tag in TagList(instance) :: tag.key;
    REQUIRED_TAGS - present
  }

  /** An instance without a `Tags` field misses both required keys. */
  lemma UntaggedMissesAll(instance: Instance)
    requires instance.tags == None
    ensures MissingTags(instance) == REQUIRED_TAGS
  {
  }

  /** Only the keys matter: two instances whose tag lists carry the same keys
      miss the same required keys, whatever the values. */
  lemma MissingTagsIgnoresValues(a: Instance, b: Instance)
    requires |TagList(a)| == |TagList(b)|
    requires forall i | 0 <= i < |TagList(a)| :: TagList(a)[i].key == TagList(b)[i].key
    ensures MissingTags(a) == MissingTags(b)
  {
    forall key | key in REQUIRED_TAGS
      ensures HasKey(TagList(a), key) == HasKey(TagList(b), key)
    {
      if HasKey(TagList(a), key) {
        var i :| 0 <= i < |TagList(a)| && TagList(a)[i].key == key;
        assert TagList(b)[i].key == key;
      }
      if HasKey(TagList(b), key) {
        var i :| 0 <= i < |TagList(b)| && TagList(b)[i].key == key;
        assert TagList(a)[i].key == key;
      }
    }
  }

  // ---------------------------------------------------------------------
  // RDP exposure

  /** A rule counts as exposing RDP when its `FromPort` is exactly 3389 and
      one of its `IpRanges` is the whole IPv4 internet. `ToPort` is not read. */
  predicate PermissionMatches(permission: IpPermission)
    ensures PermissionMatches(permission) <==>
      permission.fromPort == Some(RDP_PORT) && OPEN_CIDR in CidrIps(permission.ipRanges)
  {
    && permission.fromPort == Some(RDP_PORT)
    && exists r | 0 <= r < |permission.ipRanges| :: permission.ipRanges[r].cidrIp == OPEN_CIDR
  }

  /** The `CidrIp` of every range, in the order of the ranges. */
  function CidrIps(ranges: seq<IpRange>): (ips: seq<string>)
    ensures |ips| == |ranges|
    ensures forall i | 0 <= i < |ranges| :: ips[i] == ranges[i].cidrIp
  {
    if ranges == [] then [] else [ranges[0].cidrIp] + CidrIps(ranges[1..])
  }

  predicate GroupExposed(group: SecurityGroup)
  {
    exists k | 0 <= k < |group.ipPermissions| :: PermissionMatches(group.ipPermissions[k])
  }

  predicate BindingExposed(binding: GroupBinding)
  {
    exists j | 0 <= j < |binding.described| :: GroupExposed(binding.described[j])
  }

  /** Some attached group has some rule that exposes RDP. */
  predicate RdpExposed(bindings: seq<GroupBinding>)
  {
    exists i | 0 <= i < |bindings| :: BindingExposed(bindings[i])
  }

  /** The scan over attached groups, their descriptions and their rules,
      stopping at the first rule that exposes RDP. */
  method CheckRdpSecurity(bindings: seq<GroupBinding>) returns (open: bool)
    ensures open == RdpExposed(bindings)
  {
    var g := 0;
    while g < |bindings|
      invariant 0 <= g <= |bindings|
      invariant forall i | 0 <= i < g :: !BindingExposed(bindings[i])
    {
      var described := bindings[g].described;
      var d := 0;
      while d < |described|
        invariant 0 <= d <= |described|
        invariant forall j | 0 <= j < d :: !GroupExposed(described[j])
      {
        var permissions := described[d].ipPermissions;
        var p := 0;
        while p < |permissions|
          invariant 0 <= p <= |permissions|
          invariant forall k | 0 <= k < p :: !PermissionMatches(permissions[k])
        {
          if PermissionMatches(permissions[p]) {
            assert GroupExposed(described[d]);
            assert BindingExposed(bindings[g]);
            return true;
          }
          p := p + 1;
        }
        d := d + 1;
      }
      g := g + 1;
    }
    return false;
  }

  /** Exposure is decided by `FromPort` alone: changing `ToPort` never
      changes whether a rule matches. */
  lemma ToPortIrrelevant(permission: IpPermission, toPort: Option<int>)
    ensures PermissionMatches(permission.(toPort := toPort)) == PermissionMatches(permission)
  {
  }

  /** Example: a rule starting below 3389 does not match, even when its
      range covers 3389 and it is open to the internet. */
  lemma RangeCoveringRdpDoesNotMatch()
    ensures !PermissionMatches(IpPermission(Some(3000), Some(4000), [IpRange(OPEN_CIDR)]))
  {
  }

  /** A rule on another port, a rule without `FromPort`, or a rule on 3389
      whose ranges are all narrower than the whole internet never matches. */
  lemma NonMatchingRules(permission: IpPermission)
    requires
      || permission.fromPort != Some(RDP_PORT)
      || forall r | 0 <= r < |permission.ipRanges| :: permission.ipRanges[r].cidrIp != OPEN_CIDR
    ensures !PermissionMatches(permission)
  {
  }

  /** With no attached groups nothing is exposed. */
  lemma NoGroupsNotExposed()
    ensures !RdpExposed([])
  {
  }

  /** Groups attached after a matching one cannot undo the match. */
  lemma {:induction false} ExposureSurvivesMoreGroups(bindings: seq<GroupBinding>, more: seq<GroupBinding>)
    requires RdpExposed(bindings)
    ensures RdpExposed(bindings + more)
  {
    var i :| 0 <= i < |bindings| && BindingExposed(bindings[i]);
    assert (bindings + more)[i] == bindings[i];
  }

  /** Rules listed after a matching one cannot undo the match. */
  lemma {:induction false} ExposureSurvivesMoreRules(group: SecurityGroup, more: seq<IpPermission>)
    requires GroupExposed(group)
    ensures GroupExposed(group.(ipPermissions := group.ipPermissions + more))
  {
    var k :| 0 <= k < |group.ipPermissions| && PermissionMatches(group.ipPermissions[k]);
    assert (group.ipPermissions + more)[k] == group.ipPermissions[k];
  }

  // ---------------------------------------------------------------------
  // Production instance stopped

  /** The instance is stopped and some tag, under any key, has the value
      `production` (exact, case-sensitive). */
  predicate IsStoppedProduction(instance: Instance)
    ensures IsStoppedProduction(instance) <==>
      instance.state == STOPPED && exists tag | tag in TagList(instance) :: tag.value == PRODUCTION
    ensures IsStoppedProduction(instance) ==> instance.tags.Some?
  {
    instance.state == STOPPED && HasValue(TagList(instance), PRODUCTION)
  }

  /** Only tag values matter, not their keys. */
  lemma StoppedProductionIgnoresKeys(a: Instance, b: Instance)
    requires a.state == b.state
    requires |TagList(a)| == |TagList(b)|
    requires forall i | 0 <= i < |TagList(a)| :: TagList(a)[i].value == TagList(b)[i].value
    ensures IsStoppedProduction(a) == IsStoppedProduction(b)
  {
    if HasValue(TagList(a), PRODUCTION) {
      var i :| 0 <= i < |TagList(a)| && TagList(a)[i].value == PRODUCTION;
      assert TagList(b)[i].value == PRODUCTION;
    }
    if HasValue(TagList(b), PRODUCTION) {
      var i :| 0 <= i < |TagList(b)| && TagList(b)[i].value == PRODUCTION;
      assert TagList(a)[i].value == PRODUCTION;
    }
  }

  /** Example: a value that differs in case only does not count as
      production. */
  lemma StoppedProductionIsCaseSensitive(instanceId: string)
    ensures !IsStoppedProduction(Instance(instanceId, STOPPED, Some([Tag("Environment", "Production")]), []))
  {
  }

  /** A running instance is never reported, whatever its tags. */
  lemma RunningIsNotStopped(instance: Instance)
    requires instance.state != STOPPED
    ensures !IsStoppedProduction(instance)
  {
  }

  // ---------------------------------------------------------------------
  // Contact

  /** The value of the first tag whose key is `ITSO Email`, or `N/A`. */
  function ItsoEmail(tags: seq<Tag>): (contact: string)
    ensures !HasKey(tags, ITSO_EMAIL) ==> contact == NOT_AVAILABLE
    ensures HasKey(tags, ITSO_EMAIL) ==>
      exists i | 0 <= i < |tags| ::
        && tags[i].key == ITSO_EMAIL
        && contact == tags[i].value
        && forall j | 0 <= j < i :: tags[j].key != ITSO_EMAIL
  {
    if tags == [] then NOT_AVAILABLE
    else if tags[0].key == ITSO_EMAIL then tags[0].value
    else
      var rest := ItsoEmail(tags[1..]);
      assert HasKey(tags, ITSO_EMAIL) ==> HasKey(tags[1..], ITSO_EMAIL) by {
        if HasKey(tags, ITSO_EMAIL) {
          var i :| 0 <= i < |tags| && tags[i].key == ITSO_EMAIL;
          assert tags[1..][i - 1] == tags[i];
        }
      }
      assert HasKey(tags[1..], ITSO_EMAIL) ==> HasKey(tags, ITSO_EMAIL) by {
        if HasKey(tags[1..], ITSO_EMAIL) {
          var i :| 0 <= i < |tags[1..]| && tags[1..][i].key == ITSO_EMAIL;
          assert tags[i + 1] == tags[1..][i];
        }
      }
      assert HasKey(tags[1..], ITSO_EMAIL) ==> exists i | 0 <= i < |tags| ::
        && tags[i].key == ITSO_EMAIL && rest == tags[i].value
        && forall j | 0 <= j < i :: tags[j].key != ITSO_EMAIL
      by {
        if HasKey(tags[1..], ITSO_EMAIL) {
          var i :| 0 <= i < |tags[1..]| && tags[1..][i].key == ITSO_EMAIL && rest == tags[1..][i].value
            && forall j | 0 <= j < i :: tags[1..][j].key != ITSO_EMAIL;
          assert tags[i + 1] == tags[1..][i];
          forall j | 0 <= j < i + 1 ensures tags[j].key != ITSO_EMAIL {
            if j > 0 { assert tags[j] == tags[1..][j - 1]; }
          }
        }
      }
      rest
  }

  /** The contact used for every warning about an instance. */
  function Contact(instance: Instance): (contact: string)
    ensures instance.tags == None ==> contact == NOT_AVAILABLE
    ensures contact == NOT_AVAILABLE || exists tag | tag in TagList(instance) :: tag.key == ITSO_EMAIL && tag.value == contact
  {
    ItsoEmail(TagList(instance))
  }

  /** An instance without a `Tags` field has no contact. */
  lemma UntaggedHasNoContact(instance: Instance)
    requires instance.tags == None
    ensures Contact(instance) == NOT_AVAILABLE
  {
  }
}
