/** The notification side: the warning template, the SNS topic that
    receives the warnings, and the handler that runs the three checks over
    every listed instance and publishes one warning per violation. */
module Monitor {
  import opened Records
  import opened Checks

  const SUBJECT := "AWS EC2 Warning Notification"
  const GREETING := "Hello ITSO,\n\n"
  const SIGNOFF := "\n\nThanks,\nAWS Monitoring Team"

  /** One message as published to the topic. */
  datatype Notification = Notification(topicArn: string, subject: string, body: string)

  // ---------------------------------------------------------------------
  // The warning template

  /** The published body around a warning message. */
  function Body(message: string): string
  {
    GREETING + message + SIGNOFF
  }

  /** The body starts with the greeting and ends with the sign-off. */
  predicate IsWarningBody(body: string)
  {
    && |GREETING| + |SIGNOFF| <= |body|
    && body[..|GREETING|] == GREETING
    && body[|body| - |SIGNOFF|..] == SIGNOFF
  }

  /** The message that a warning body wraps. */
  function MessageOf(body: string): string
    requires IsWarningBody(body)
  {
    body[|GREETING|..|body| - |SIGNOFF|]
  }

  /** The template can be taken off again: every message is recovered from
      its body. */
  lemma BodyRoundTrip(message: string)
    ensures IsWarningBody(Body(message))
    ensures MessageOf(Body(message)) == message
  {
    var body := Body(message);
    assert body[..|GREETING|] == GREETING;
    assert body[|body| - |SIGNOFF|..] == SIGNOFF;
    assert body[|GREETING|..|body| - |SIGNOFF|] == message;
  }

  /** Conversely, every warning body is the template around its message. */
  lemma MessageOfRoundTrip(body: string)
    requires IsWarningBody(body)
    ensures Body(MessageOf(body)) == body
  {
    var m := MessageOf(body);
    assert body == body[..|GREETING|] + m + body[|body| - |SIGNOFF|..];
  }

  /** What `send_warning_email` publishes to the topic `topicArn`. */
  function Notify(topicArn: string, message: string): Notification
  {
    Notification(topicArn, SUBJECT, Body(message))
  }

  /** A notification as every warning looks: to the configured topic, with
      the fixed subject and the template around some message. */
  predicate IsWarning(topicArn: string, n: Notification)
  {
    n.topicArn == topicArn && n.subject == SUBJECT && IsWarningBody(n.body)
  }

  lemma NotifyIsWarning(topicArn: string, message: string)
    ensures IsWarning(topicArn, Notify(topicArn, message))
    ensures MessageOf(Notify(topicArn, message).body) == message
  {
    BodyRoundTrip(message);
  }

  // ---------------------------------------------------------------------
  // Violations and their messages

  /** One violated rule; the missing-tags violation carries the missing keys. */
  datatype Violation = TagsMissing(keys: set<string>) | RdpOpenToInternet | StoppedProduction

  /** The position of each kind of warning in an instance's output. */
  function Rank(violation: Violation): nat
  {
    match violation
    case TagsMissing(_) => 0
    case RdpOpenToInternet => 1
    case StoppedProduction => 2
  }

  /** The violations of one instance, in the order they are reported. */
  function Findings(instance: Instance): seq<Violation>
  {
    var missing := MissingTags(instance);
    (if missing != {} then [TagsMissing(missing)] else [])
    + (if RdpExposed(instance.securityGroups) then [RdpOpenToInternet] else [])
    + (if IsStoppedProduction(instance) then [StoppedProduction] else [])
  }

  /** Each rule is reported on its own, exactly when it is violated. */
  lemma FindingsReportEachRule(instance: Instance)
    ensures TagsMissing(MissingTags(instance)) in Findings(instance) <==> MissingTags(instance) != {}
    ensures forall i | 0 <= i < |Findings(instance)| && Findings(instance)[i].TagsMissing? ::
      Findings(instance)[i].keys == MissingTags(instance)
    ensures RdpOpenToInternet in Findings(instance) <==> RdpExposed(instance.securityGroups)
    ensures StoppedProduction in Findings(instance) <==> IsStoppedProduction(instance)
  {
  }

  /** At most one report per rule, always in the order missing tags, open
      RDP, stopped production. */
  lemma FindingsInFixedOrder(instance: Instance)
    ensures |Findings(instance)| <= 3
    ensures forall i, j | 0 <= i < j < |Findings(instance)| :: Rank(Findings(instance)[i]) < Rank(Findings(instance)[j])
  {
  }

  predicate NoDuplicates(s: seq<string>)
  {
    forall i, j | 0 <= i < j < |s| :: s[i] != s[j]
  }

  /** Iterating a set of the two required keys happens in an order that is
      fixed for a run but not otherwise specified: one of the two orders. */
  datatype KeyOrder = BusinessUnitFirst | ItsoEmailFirst

  /** The required keys in the iteration order `order`. */
  function IterationOrder(order: KeyOrder): seq<string>
  {
    match order
    case BusinessUnitFirst => [BUSINESS_UNIT, ITSO_EMAIL]
    case ItsoEmailFirst => [ITSO_EMAIL, BUSINESS_UNIT]
  }

  /** Either iteration order lists each of the two required keys exactly
      once, and nothing else. */
  lemma IterationOrderKeys(order: KeyOrder)
    ensures |IterationOrder(order)| == 2
    ensures NoDuplicates(IterationOrder(order))
    ensures forall k :: k in IterationOrder(order) <==> k in REQUIRED_TAGS
  {
  }

  /** The elements of `keys`, in the order they have in `keyOrder`. */
  function Listing(keyOrder: seq<string>, keys: set<string>): (listed: seq<string>)
    ensures forall k :: k in listed <==> k in keyOrder && k in keys
    ensures NoDuplicates(keyOrder) ==> NoDuplicates(listed)
  {
    if keyOrder == [] then []
    else
      var rest := Listing(keyOrder[1..], keys);
      assert NoDuplicates(keyOrder) ==> keyOrder[0] !in keyOrder[1..] by {
        if NoDuplicates(keyOrder) {
          forall j | 0 <= j < |keyOrder[1..]| ensures keyOrder[1..][j] != keyOrder[0] {
            assert keyOrder[1..][j] == keyOrder[j + 1];
          }
        }
      }
      assert NoDuplicates(keyOrder) ==> NoDuplicates(keyOrder[1..]) by {
        if NoDuplicates(keyOrder) {
          forall i, j | 0 <= i < j < |keyOrder[1..]| ensures keyOrder[1..][i] != keyOrder[1..][j] {
            assert keyOrder[1..][i] == keyOrder[i + 1] && keyOrder[1..][j] == keyOrder[j + 1];
          }
        }
      }
      (if keyOrder[0] in keys then [keyOrder[0]] else []) + rest
  }

  /** Listing a set of required keys in either iteration order names every
      key of the set exactly once and nothing else. */
  lemma ListingEnumerates(order: KeyOrder, keys: set<string>)
    requires keys <= REQUIRED_TAGS
    ensures forall k :: k in Listing(IterationOrder(order), keys) <==> k in keys
    ensures NoDuplicates(Listing(IterationOrder(order), keys))
  {
  }

  /** `sep.join(parts)`. */
  function Join(parts: seq<string>, sep: string): string
  {
    if parts == [] then ""
    else if |parts| == 1 then parts[0]
    else parts[0] + sep + Join(parts[1..], sep)
  }

  const TAGS_MISSING_TEXT := " is missing required tags: "
  const RDP_OPEN_TEXT := " has RDP port (3389) open to the internet (0.0.0.0/0). Please review security settings."
  const STOPPED_TEXT := " has been stopped. Immediate action is required."

  /** The warning message for one violation of one instance. */
  function MessageText(instanceId: string, violation: Violation, order: KeyOrder): string
  {
    match violation
    case TagsMissing(keys) =>
      "Instance " + instanceId + TAGS_MISSING_TEXT + Join(Listing(IterationOrder(order), keys), ", ") + "."
    case RdpOpenToInternet =>
      "Instance " + instanceId + RDP_OPEN_TEXT
    case StoppedProduction =>
      "Production instance " + instanceId + STOPPED_TEXT
  }

  // ---------------------------------------------------------------------
  // What one run publishes

  /** One warning per violation, in the order of the violations. */
  function Emit(topicArn: string, instanceId: string, found: seq<Violation>, order: KeyOrder): (sent: seq<Notification>)
    ensures |sent| == |found|
  {
    if found == [] then []
    else
      Emit(topicArn, instanceId, found[..|found| - 1], order)
      + [Notify(topicArn, MessageText(instanceId, found[|found| - 1], order))]
  }

  lemma EmitSnoc(topicArn: string, instanceId: string, found: seq<Violation>, v: Violation, order: KeyOrder)
    ensures Emit(topicArn, instanceId, found + [v], order)
      == Emit(topicArn, instanceId, found, order) + [Notify(topicArn, MessageText(instanceId, v, order))]
  {
    assert (found + [v])[..|found|] == found;
  }

  /** The i-th warning is the one for the i-th violation. */
  lemma {:induction false} EmitAt(topicArn: string, instanceId: string, found: seq<Violation>, order: KeyOrder, i: nat)
    requires i < |found|
    ensures Emit(topicArn, instanceId, found, order)[i] == Notify(topicArn, MessageText(instanceId, found[i], order))
    decreases |found|
  {
    if i < |found| - 1 {
      EmitAt(topicArn, instanceId, found[..|found| - 1], order, i);
    }
  }

  /** The warnings published about one instance. */
  function InstanceNotifications(topicArn: string, instance: Instance, order: KeyOrder): seq<Notification>
  {
    Emit(topicArn, instance.instanceId, Findings(instance), order)
  }

  /** The warnings published about a list of instances, instance by instance. */
  function DispatchInstances(topicArn: string, instances: seq<Instance>, order: KeyOrder): seq<Notification>
  {
    if instances == [] then []
    else
      DispatchInstances(topicArn, instances[..|instances| - 1], order)
      + InstanceNotifications(topicArn, instances[|instances| - 1], order)
  }

  /** The warnings published for a listing, reservation by reservation. */
  function Dispatch(topicArn: string, reservations: seq<Reservation>, order: KeyOrder): seq<Notification>
  {
    if reservations == [] then []
    else
      Dispatch(topicArn, reservations[..|reservations| - 1], order)
      + DispatchInstances(topicArn, reservations[|reservations| - 1].instances, order)
  }

  /** Checking one more instance extends what was published by its warnings. */
  lemma InstanceStep(topicArn: string, done: seq<Notification>, instances: seq<Instance>, n: nat, order: KeyOrder)
    requires n < |instances|
    ensures done + DispatchInstances(topicArn, instances[..n], order) + InstanceNotifications(topicArn, instances[n], order)
      == done + DispatchInstances(topicArn, instances[..n + 1], order)
  {
    assert instances[..n + 1][..n] == instances[..n];
  }

  /** Finishing one more reservation extends what was published by the
      warnings of all its instances. */
  lemma ReservationStep(topicArn: string, start: seq<Notification>, reservations: seq<Reservation>, r: nat, order: KeyOrder)
    requires r < |reservations|
    ensures start + Dispatch(topicArn, reservations[..r], order) + DispatchInstances(topicArn, reservations[r].instances, order)
      == start + Dispatch(topicArn, reservations[..r + 1], order)
  {
    assert reservations[..r + 1][..r] == reservations[..r];
  }

  function InstanceCount(reservations: seq<Reservation>): nat
  {
    if reservations == [] then 0
    else InstanceCount(reservations[..|reservations| - 1]) + |reservations[|reservations| - 1].instances|
  }

  // ---------------------------------------------------------------------
  // The SNS topic and the handler

  /** The notification topic; publishing appends to what it has received. */
  class Topic {
    const arn: string
    var published: seq<Notification>

    constructor (arn: string)
      ensures this.arn == arn && published == []
    {
      this.arn := arn;
      published := [];
    }

    method Publish(subject: string, body: string)
      modifies this
      ensures published == old(published) + [Notification(arn, subject, body)]
    {
      published := published + [Notification(arn, subject, body)];
    }
  }

  /** Publishes the warning template around `message`. The contact is
      accepted but plays no part in what is published. */
  method SendWarningEmail(topic: Topic, itsEmail: string, message: string)
    modifies topic
    ensures topic.published == old(topic.published) + [Notify(topic.arn, message)]
  {
    topic.Publish(SUBJECT, Body(message));
  }

  /** One rule block of the handler: when the rule is violated, looks up the
      contact and sends the warning for `violation`; otherwise publishes
      nothing. */
  method WarnIf(topic: Topic, instance: Instance, order: KeyOrder, violated: bool, violation: Violation)
    modifies topic
    ensures topic.published == old(topic.published) + RuleWarning(topic.arn, instance, order, violated, violation)
  {
    if violated {
      var itsEmail := Contact(instance);
      SendWarningEmail(topic, itsEmail, MessageText(instance.instanceId, violation, order));
    }
  }

  /** The three checks on one instance, each publishing its own warning.
      `order` is the order in which the run iterates a set of required keys. */
  method CheckInstance(topic: Topic, instance: Instance, order: KeyOrder)
    modifies topic
    ensures topic.published == old(topic.published) + InstanceNotifications(topic.arn, instance, order)
  {
    var missingTags := MissingTags(instance);
    WarnIf(topic, instance, order, missingTags != {}, TagsMissing(missingTags));

    var open := CheckRdpSecurity(instance.securityGroups);
    WarnIf(topic, instance, order, open, RdpOpenToInternet);

    var stopped := instance.state == STOPPED && HasValue(TagList(instance), PRODUCTION);
    WarnIf(topic, instance, order, stopped, StoppedProduction);

    InstanceNotificationsByRule(topic.arn, instance, order, missingTags, open, stopped);
  }

  /** The warning for `violation` if `violated` holds, and nothing otherwise. */
  function RuleWarning(topicArn: string, instance: Instance, order: KeyOrder, violated: bool, violation: Violation): seq<Notification>
  {
    if violated then [Notify(topicArn, MessageText(instance.instanceId, violation, order))] else []
  }

  /** The warnings about one instance are the missing-tags warning, then the
      RDP warning, then the stopped-production warning, each present exactly
      when its rule is violated. */
  lemma InstanceNotificationsByRule(topicArn: string, instance: Instance, order: KeyOrder,
                                    missing: set<string>, open: bool, stopped: bool)
    requires missing == MissingTags(instance)
    requires open == RdpExposed(instance.securityGroups)
    requires stopped == IsStoppedProduction(instance)
    ensures InstanceNotifications(topicArn, instance, order)
      == RuleWarning(topicArn, instance, order, missing != {}, TagsMissing(missing))
       + RuleWarning(topicArn, instance, order, open, RdpOpenToInternet)
       + RuleWarning(topicArn, instance, order, stopped, StoppedProduction)
  {
    var found0: seq<Violation> := if missing != {} then [TagsMissing(missing)] else [];
    var found1 := found0 + if open then [RdpOpenToInternet] else [];
    var found2 := found1 + if stopped then [StoppedProduction] else [];
    assert found2 == Findings(instance);
    var tagsPart := RuleWarning(topicArn, instance, order, missing != {}, TagsMissing(missing));
    var rdpPart := RuleWarning(topicArn, instance, order, open, RdpOpenToInternet);
    assert Emit(topicArn, instance.instanceId, found0, order) == tagsPart by {
      if missing != {} { EmitSnoc(topicArn, instance.instanceId, [], TagsMissing(missing), order); }
    }
    assert Emit(topicArn, instance.instanceId, found1, order) == tagsPart + rdpPart by {
      if open { EmitSnoc(topicArn, instance.instanceId, found0, RdpOpenToInternet, order); }
      else { assert found1 == found0; }
    }
    if stopped {
      EmitSnoc(topicArn, instance.instanceId, found1, StoppedProduction, order);
    } else {
      assert found2 == found1;
    }
  }

  /** The inner loop of the handler: the checks on every instance of one
      reservation, in order. */
  method CheckReservation(topic: Topic, instances: seq<Instance>, order: KeyOrder)
    modifies topic
    ensures topic.published == old(topic.published) + DispatchInstances(topic.arn, instances, order)
  {
    ghost var done := topic.published;
    var n := 0;
    while n < |instances|
      invariant 0 <= n <= |instances|
      invariant topic.published == done + DispatchInstances(topic.arn, instances[..n], order)
    {
      CheckInstance(topic, instances[n], order);
      InstanceStep(topic.arn, done, instances, n, order);
      n := n + 1;
    }
    assert instances[..n] == instances;
  }

  /** Runs the checks over every instance of every reservation, in order.
      `order` is the order in which the run iterates a set of required keys. */
  method LambdaHandler(topic: Topic, reservations: seq<Reservation>, order: KeyOrder)
    modifies topic
    ensures topic.published == old(topic.published) + Dispatch(topic.arn, reservations, order)
  {
    ghost var start := topic.published;
    var r := 0;
    while r < |reservations|
      invariant 0 <= r <= |reservations|
      invariant topic.published == start + Dispatch(topic.arn, reservations[..r], order)
    {
      CheckReservation(topic, reservations[r].instances, order);
      ReservationStep(topic.arn, start, reservations, r, order);
      r := r + 1;
    }
    assert reservations[..r] == reservations;
  }

  // ---------------------------------------------------------------------
  // Properties of what is published

  /** An instance is warned about iff it violates at least one rule. */
  lemma QuietIffCompliant(topicArn: string, instance: Instance, order: KeyOrder)
    ensures InstanceNotifications(topicArn, instance, order) == [] <==>
      MissingTags(instance) == {} && !RdpExposed(instance.securityGroups) && !IsStoppedProduction(instance)
  {
  }

  /** At most three warnings per instance. */
  lemma AtMostThreePerInstance(topicArn: string, instance: Instance, order: KeyOrder)
    ensures |InstanceNotifications(topicArn, instance, order)| <= 3
  {
  }

  /** The instances' warnings follow the instances. */
  lemma {:induction false} DispatchInstancesAppend(topicArn: string, a: seq<Instance>, b: seq<Instance>, order: KeyOrder)
    ensures DispatchInstances(topicArn, a + b, order)
      == DispatchInstances(topicArn, a, order) + DispatchInstances(topicArn, b, order)
    decreases |b|
  {
    if b == [] {
      assert a + b == a;
    } else {
      var b' := b[..|b| - 1];
      assert (a + b)[..|a + b| - 1] == a + b';
      assert (a + b)[|a + b| - 1] == b[|b| - 1];
      DispatchInstancesAppend(topicArn, a, b', order);
    }
  }

  /** A listing with n instances gets at most 3n warnings. */
  lemma {:induction false} DispatchBound(topicArn: string, reservations: seq<Reservation>, order: KeyOrder)
    ensures |Dispatch(topicArn, reservations, order)| <= 3 * InstanceCount(reservations)
    decreases |reservations|
  {
    if reservations != [] {
      DispatchBound(topicArn, reservations[..|reservations| - 1], order);
      DispatchInstancesBound(topicArn, reservations[|reservations| - 1].instances, order);
    }
  }

  lemma {:induction false} DispatchInstancesBound(topicArn: string, instances: seq<Instance>, order: KeyOrder)
    ensures |DispatchInstances(topicArn, instances, order)| <= 3 * |instances|
    decreases |instances|
  {
    if instances != [] {
      DispatchInstancesBound(topicArn, instances[..|instances| - 1], order);
    }
  }

  /** Every warning about one instance is a templated warning. */
  lemma InstanceWarnings(topicArn: string, instance: Instance, order: KeyOrder)
    ensures forall i | 0 <= i < |InstanceNotifications(topicArn, instance, order)| ::
      IsWarning(topicArn, InstanceNotifications(topicArn, instance, order)[i])
  {
    var found := Findings(instance);
    forall i | 0 <= i < |found|
      ensures IsWarning(topicArn, Emit(topicArn, instance.instanceId, found, order)[i])
    {
      EmitAt(topicArn, instance.instanceId, found, order, i);
      NotifyIsWarning(topicArn, MessageText(instance.instanceId, found[i], order));
    }
  }

  lemma {:induction false} InstancesPublishWarnings(topicArn: string, instances: seq<Instance>, order: KeyOrder)
    ensures forall i | 0 <= i < |DispatchInstances(topicArn, instances, order)| ::
      IsWarning(topicArn, DispatchInstances(topicArn, instances, order)[i])
    decreases |instances|
  {
    if instances != [] {
      var front := DispatchInstances(topicArn, instances[..|instances| - 1], order);
      var last := InstanceNotifications(topicArn, instances[|instances| - 1], order);
      InstancesPublishWarnings(topicArn, instances[..|instances| - 1], order);
      InstanceWarnings(topicArn, instances[|instances| - 1], order);
      AllWarningsAppend(topicArn, front, last);
    }
  }

  lemma AllWarningsAppend(topicArn: string, a: seq<Notification>, b: seq<Notification>)
    requires forall i | 0 <= i < |a| :: IsWarning(topicArn, a[i])
    requires forall i | 0 <= i < |b| :: IsWarning(topicArn, b[i])
    ensures forall i | 0 <= i < |a + b| :: IsWarning(topicArn, (a + b)[i])
  {
    forall i | 0 <= i < |a + b| ensures IsWarning(topicArn, (a + b)[i]) {
      if i >= |a| { assert (a + b)[i] == b[i - |a|]; }
    }
  }

  /** Everything published goes to the topic with the fixed subject and the
      warning template around its message. */
  lemma {:induction false} AllPublishedAreWarnings(topicArn: string, reservations: seq<Reservation>, order: KeyOrder)
    ensures forall i | 0 <= i < |Dispatch(topicArn, reservations, order)| ::
      IsWarning(topicArn, Dispatch(topicArn, reservations, order)[i])
    decreases |reservations|
  {
    if reservations != [] {
      var front := Dispatch(topicArn, reservations[..|reservations| - 1], order);
      var last := DispatchInstances(topicArn, reservations[|reservations| - 1].instances, order);
      AllPublishedAreWarnings(topicArn, reservations[..|reservations| - 1], order);
      InstancesPublishWarnings(topicArn, reservations[|reservations| - 1].instances, order);
      AllWarningsAppend(topicArn, front, last);
    }
  }

  // ---------------------------------------------------------------------
  // Worked examples

  /** With one key missing the message names just that key, whatever the
      iteration order. */
  lemma OneMissingKeyText(instanceId: string, key: string, order: KeyOrder)
    requires key in REQUIRED_TAGS
    ensures MessageText(instanceId, TagsMissing({key}), order) == "Instance " + instanceId + TAGS_MISSING_TEXT + key + "."
  {
    assert BUSINESS_UNIT != ITSO_EMAIL;
    var keys := IterationOrder(order);
    var rest := keys[1..];
    assert rest[1..] == [];
    assert Listing(rest[1..], {key}) == [];
    if keys[0] == key {
      assert Listing(rest, {key}) == [];
    } else {
      assert rest[0] == key;
      assert Listing(rest, {key}) == [key];
    }
    assert Listing(keys, {key}) == [key];
  }

  /** With both keys missing the message names them joined by `, `, in the
      iteration order. */
  lemma BothMissingKeysText(instanceId: string, order: KeyOrder)
    ensures MessageText(instanceId, TagsMissing(REQUIRED_TAGS), order)
      == "Instance " + instanceId + TAGS_MISSING_TEXT
         + IterationOrder(order)[0] + ", " + IterationOrder(order)[1] + "."
  {
    var keys := IterationOrder(order);
    assert keys[1..][1..] == [];
    assert Listing(keys[1..][1..], REQUIRED_TAGS) == [];
    assert Listing(keys[1..], REQUIRED_TAGS) == [keys[1]];
    assert Listing(keys, REQUIRED_TAGS) == [keys[0], keys[1]];
    assert Join([keys[0], keys[1]], ", ") == keys[0] + ", " + keys[1];
  }

  /** Missing `Business Unit` and RDP open: two warnings, missing tags first. */
  lemma ExampleMissingTagAndOpenRdp(topicArn: string, order: KeyOrder)
    ensures
      var instance := Instance("i-1", "running", Some([Tag(ITSO_EMAIL, "a@x.com")]),
        [GroupBinding("sg-1", [SecurityGroup("sg-1", [IpPermission(Some(3389), Some(3389), [IpRange(OPEN_CIDR)])])])]);
      && Contact(instance) == "a@x.com"
      && InstanceNotifications(topicArn, instance, order) == [
           Notify(topicArn, "Instance i-1" + TAGS_MISSING_TEXT + BUSINESS_UNIT + "."),
           Notify(topicArn, "Instance i-1" + RDP_OPEN_TEXT)]
  {
    var permission := IpPermission(Some(3389), Some(3389), [IpRange(OPEN_CIDR)]);
    var group := SecurityGroup("sg-1", [permission]);
    var binding := GroupBinding("sg-1", [group]);
    var tags := [Tag(ITSO_EMAIL, "a@x.com")];
    var instance := Instance("i-1", "running", Some(tags), [binding]);
    assert permission.ipRanges[0].cidrIp == OPEN_CIDR;
    assert PermissionMatches(group.ipPermissions[0]);
    assert GroupExposed(binding.described[0]);
    assert BindingExposed(instance.securityGroups[0]);
    assert tags[0].key == ITSO_EMAIL;
    assert !HasKey(tags, BUSINESS_UNIT);
    assert MissingTags(instance) == {BUSINESS_UNIT};
    InstanceNotificationsByRule(topicArn, instance, order, {BUSINESS_UNIT}, true, false);
    OneMissingKeyText("i-1", BUSINESS_UNIT, order);
    assert "Instance " + "i-1" == "Instance i-1";
  }

  /** A stopped instance tagged `production` under some key, with both
      required tags and no groups: one warning. */
  lemma ExampleStoppedProduction(topicArn: string, order: KeyOrder)
    ensures
      var instance := Instance("i-2", STOPPED,
        Some([Tag(BUSINESS_UNIT, "Ops"), Tag(ITSO_EMAIL, "b@x.com"), Tag("Stage", PRODUCTION)]), []);
      && Contact(instance) == "b@x.com"
      && InstanceNotifications(topicArn, instance, order) == [
           Notify(topicArn, "Production instance i-2" + STOPPED_TEXT)]
  {
    var tags := [Tag(BUSINESS_UNIT, "Ops"), Tag(ITSO_EMAIL, "b@x.com"), Tag("Stage", PRODUCTION)];
    var instance := Instance("i-2", STOPPED, Some(tags), []);
    assert tags[0].key == BUSINESS_UNIT && tags[1].key == ITSO_EMAIL && tags[2].value == PRODUCTION;
    assert MissingTags(instance) == {};
    assert IsStoppedProduction(instance);
    InstanceNotificationsByRule(topicArn, instance, order, {}, false, true);
    assert ItsoEmail(tags) == "b@x.com" by {
      assert tags[1..][0].key == ITSO_EMAIL;
    }
    assert "Production instance " + "i-2" == "Production instance i-2";
  }
}
