# EC2 tag and RDP compliance monitor — a Dafny model

This project models the rule-evaluation logic of a scheduled AWS Lambda
function (`project2.py`). The function lists EC2 instances and, for each one,
runs three checks:

- whether the required tags `Business Unit` and `ITSO Email` are present;
- whether any attached security group has an inbound rule on port 3389 (RDP)
  open to `0.0.0.0/0`;
- whether an instance that carries a tag value `production` has been stopped.

For every violation it publishes a warning to an SNS topic. The warning body
wraps the message in a fixed greeting and sign-off, under a fixed subject.

The project has three modules:

- `Records` (`records.dfy`) holds the EC2 response shapes that the checks
  read: tags, IP ranges, permissions, security groups, instances and
  reservations. The lookups that return them become plain input data.
- `Checks` (`checks.dfy`) holds the three rules and the contact lookup:
  - `check_tags` is a function over sets.
  - The RDP scan is a method with three nested loops and an early return.
    It is proved equal to an existential specification, `RdpExposed`.
  - The production-stopped test and the `ITSO Email` lookup are functions.
- `Monitor` (`monitor.dfy`) holds the rest:
  - the warning template and its inverse;
  - the SNS topic, as a class whose `published` sequence grows by one
    notification per publish;
  - `send_warning_email`;
  - the per-instance checks and `lambda_handler`, as methods. `WarnIf` is one
    rule block of the loop body, and `CheckReservation` is the inner loop over
    the instances of one reservation.

  Each method is proved against functions (`Findings`, `InstanceNotifications`,
  `Dispatch`) that say what the run publishes, in order.

Points of the code's behaviour worth noting:

- Security-group ids are not de-duplicated. A group attached twice is
  scanned twice, which does not change the result.
- A rule matches only when its `FromPort` is exactly 3389. A port range that
  covers 3389 does not match, and `ToPort` is never read.
- The missing keys are a set, so their order in the message is Python's set
  iteration order and not a fixed order. The model takes that order as a
  parameter of type `KeyOrder`: either `Business Unit` first or `ITSO Email`
  first. Because the type has only these two values, every message lists each
  missing key exactly once, whichever order the run uses.
- There is no error isolation. A failing lookup or publish ends the whole run.
  The model has no error paths because the code has none.
- The contact (`ITSO Email` value) is computed for every warning, but it is
  never used in what is published.

## Model

| member | source | states |
|---|---|---|
| `Checks.MissingTags` | project2.py:11-17 | the result is exactly the required keys `Business Unit` and `ITSO Email` that no tag of the instance carries as key; it is a subset of the two required keys and is empty iff both keys are present |
| `Checks.UntaggedMissesAll` | project2.py:12-15 | an instance without a `Tags` field misses both required keys |
| `Checks.MissingTagsIgnoresValues` | project2.py:14 | only tag keys matter: two tag lists with the same keys miss the same required keys, whatever their values |
| `Checks.CheckRdpSecurity` | project2.py:24-33 | the nested scan over attached groups, their described groups and their permissions returns true iff some permission has `FromPort` 3389 and some `IpRanges` entry `0.0.0.0/0` |
| `Checks.PermissionMatches` | project2.py:30 | a rule matches iff its `FromPort` is 3389 and `0.0.0.0/0` is in the list of its ranges' `CidrIp` values |
| `Checks.CidrIps` | project2.py:30 | the list of the `CidrIp` of every range, one per range and in the same order |
| `Checks.ToPortIrrelevant` | project2.py:30 | changing a rule's `ToPort` never changes whether it matches |
| `Checks.RangeCoveringRdpDoesNotMatch` | project2.py:30 | a rule from port 3000 to 4000 open to the internet does not count as exposing RDP |
| `Checks.NonMatchingRules` | project2.py:30 | a rule on another port, a rule without `FromPort`, or a rule on 3389 with no `0.0.0.0/0` range never matches |
| `Checks.NoGroupsNotExposed` | project2.py:22-33 | with no attached groups the result is false |
| `Checks.ExposureSurvivesMoreGroups` | project2.py:24-31 | once some group exposes RDP, attaching further groups after it keeps the result true |
| `Checks.ExposureSurvivesMoreRules` | project2.py:29-31 | once a group has a matching rule, appending further rules keeps it matching |
| `Checks.IsStoppedProduction` | project2.py:78 | an instance is reported iff its state is `stopped` and some tag has the value `production`; such an instance always has a `Tags` field |
| `Checks.StoppedProductionIgnoresKeys` | project2.py:78 | the production-stopped test depends only on the state and the tag values, never on the tag keys |
| `Checks.StoppedProductionIsCaseSensitive` | project2.py:78 | a stopped instance whose only tag value is `Production` is not reported |
| `Checks.RunningIsNotStopped` | project2.py:78 | an instance whose state is not `stopped` is never reported, whatever its tags |
| `Checks.ItsoEmail` | project2.py:63 | the result is the value of the first tag whose key is `ITSO Email`, or `N/A` when no tag has that key |
| `Checks.Contact` | project2.py:63 | the contact of an instance is `N/A` or the value of one of its `ITSO Email` tags; without a `Tags` field it is `N/A` |
| `Checks.UntaggedHasNoContact` | project2.py:63 | an instance without a `Tags` field has contact `N/A` |
| `Monitor.Body` | project2.py:47 | the published body is the greeting, the message and the sign-off, in that order |
| `Monitor.Notify` | project2.py:44-48 | a warning goes to the configured topic, with the fixed subject and the templated body |
| `Monitor.BodyRoundTrip` | project2.py:47 | every body built by the template starts with the greeting, ends with the sign-off, and gives back exactly the wrapped message |
| `Monitor.MessageOfRoundTrip` | project2.py:47 | every body with the greeting and sign-off is the template around the message it wraps |
| `Monitor.NotifyIsWarning` | project2.py:44-48 | a published warning goes to the configured topic with the fixed subject, and its body unwraps to the message |
| `Monitor.FindingsReportEachRule` | project2.py:61-83 | missing tags, open RDP and stopped production are each reported iff that rule is violated, independently of the others; the missing-tags report carries exactly the missing keys |
| `Monitor.FindingsInFixedOrder` | project2.py:60-83 | at most three reports per instance, always in the order missing tags, open RDP, stopped production |
| `Monitor.IterationOrderKeys` | project2.py:12 | either iteration order lists the two required keys, each exactly once |
| `Monitor.Listing` | project2.py:66 | the listed keys are exactly those of the set that occur in the iteration order, without repeats when the order has none |
| `Monitor.Join` | project2.py:66 | `', '.join`: the parts with the separator between consecutive ones |
| `Monitor.MessageText` | project2.py:66-82 | the three warning messages, for missing tags, open RDP and stopped production |
| `Monitor.ListingEnumerates` | project2.py:66 | in either iteration order, the joined keys name every missing key exactly once and nothing else |
| `Monitor.OneMissingKeyText` | project2.py:66 | with a single missing key the message is `Instance <id> is missing required tags: <key>.` whatever the iteration order |
| `Monitor.BothMissingKeysText` | project2.py:66 | with both keys missing the message is `Instance <id> is missing required tags: <k1>, <k2>.`, the keys in the iteration order |
| `Monitor.EmitAt` | project2.py:62-83 | the i-th warning about an instance is the templated message of its i-th violation |
| `Monitor.Topic.Publish` | project2.py:44-48 | publishing appends exactly one notification with the topic, subject and body to what the topic has received |
| `Monitor.SendWarningEmail` | project2.py:37-48 | appends exactly one notification with the fixed subject and the template around the message; the contact argument plays no part |
| `Monitor.WarnIf` | project2.py:62-83 | one rule block: the published sequence grows by the rule's warning when the rule is violated, and is unchanged otherwise |
| `Monitor.CheckInstance` | project2.py:57-83 | the published sequence grows by exactly the instance's warnings, in the order of its violations |
| `Monitor.InstanceNotificationsByRule` | project2.py:61-83 | an instance's warnings are the missing-tags warning, then the RDP warning, then the production-stopped warning, each present exactly when its check fired |
| `Monitor.CheckReservation` | project2.py:56-83 | the published sequence grows by exactly the warnings of the reservation's instances, in their order |
| `Monitor.LambdaHandler` | project2.py:52-83 | the published sequence grows by exactly the warnings of every instance of every reservation, in listing order |
| `Monitor.QuietIffCompliant` | project2.py:61-83 | an instance gets no warning iff it has both required tags, no open RDP rule and is not a stopped production instance |
| `Monitor.AtMostThreePerInstance` | project2.py:61-83 | no instance gets more than three warnings |
| `Monitor.DispatchInstancesAppend` | project2.py:56-57 | the warnings for a list of instances are the warnings for its first part followed by those for the rest |
| `Monitor.DispatchBound` | project2.py:55-83 | a run over n instances publishes at most 3n warnings |
| `Monitor.AllPublishedAreWarnings` | project2.py:44-48 | everything a run publishes goes to the configured topic with the fixed subject and the greeting/sign-off template |
| `Monitor.ExampleMissingTagAndOpenRdp` | project2.py:61-75 | an instance tagged only with `ITSO Email` and with an open RDP rule gets two warnings, missing `Business Unit` first, then open RDP; its contact is its `ITSO Email` value |
| `Monitor.ExampleStoppedProduction` | project2.py:77-83 | a stopped, fully tagged instance with a `production` tag value under another key gets exactly the production-stopped warning |

## Left out

- The boto3 clients and every API call are not modelled: `describe_instances` at lines 21 and 53, `describe_security_groups` at line 27, and `publish` at line 44. Their results are inputs: each instance carries its attached groups together with what describing each group returns. Publishing appends to `Topic.published`.
- The re-fetch of the instance by id inside `check_rdp_security`, which takes the first instance of the first reservation, is not modelled. The instance's own security groups are used.
- Reading `SNS_TOPIC_ARN` from the environment is not modelled. The topic ARN is a field of `Topic`.
- The logging in `send_warning_email` is not modelled, because it has no effect on what is published.
- Pagination is not modelled, because the code reads only the first page of `describe_instances`. The model's listing is that page.
- Exceptions are not modelled. A failed API call ends the whole run, and the code catches nothing.
- Python's set iteration order for `', '.join(missing_tags)` is not modelled; it is a parameter of the run (`order`, of type `KeyOrder`). The message is proved to list the keys in the given order; which of the two orders a real run uses is not modelled.
- Absent `Tags`, `IpPermissions` and `IpRanges` lists are modelled as empty sequences; an absent `Tags` is read as no tags. Instances whose `State` or `InstanceId` is missing, and groups without `GroupId`, are outside the model: the code would raise `KeyError` there.
