/** Business rules above the entity: creating validated notifications,
    summarising batches, retry and priority decisions, delivery estimates
    (src/notification_service/domain/services/notification_service.py). */
module NotificationService {
  import opened Wrappers
  import opened Text
  import opened DeviceTokens
  import opened Topics
  import opened NotificationTypes
  import opened Notifications
  import Grouping

  datatype CreateError =
    | MissingTarget
    | ConflictingTargets
    | InvalidNotification(errors: seq<ValidationError>)

  /** The exception message each creation error carries. */
  function CreateErrorMessage(e: CreateError): string {
    match e
    case MissingTarget => "Must specify either device tokens or topic"
    case ConflictingTargets => "Cannot specify both device tokens and topic"
    case InvalidNotification(errors) =>
      "Invalid notification: " + Join(seq(|errors|, i requires 0 <= i < |errors| => ErrorMessage(errors[i])), "; ")
  }

  /** The content the matching factory builds for exactly one target. */
  function Build(t: NotificationType, title: Option<string>, body: Option<string>, data: Option<Data>,
                 deviceTokens: Option<DeviceTokenList>, topic: Option<Topic>, priority: string, x: Extras): Content
    requires deviceTokens.Some? || topic.Some?
  {
    if deviceTokens.Some? then ForDevices(t, deviceTokens.value, title, body, data, priority, x)
    else ForTopic(t, topic.value, title, body, data, priority, x)
  }

  /** `create_notification`: exactly one target is required; the built
      notification is returned only if it validates at `now`, otherwise
      all of its validation errors are reported. */
  function CreateNotification(t: NotificationType, title: Option<string>, body: Option<string>, data: Option<Data>,
                              deviceTokens: Option<DeviceTokenList>, topic: Option<Topic>, priority: string,
                              x: Extras, now: Instant): (r: Result<Content, CreateError>)
    ensures r == Err(MissingTarget) <==> deviceTokens.None? && topic.None?
    ensures r == Err(ConflictingTargets) <==> deviceTokens.Some? && topic.Some?
    ensures r.Ok? ==> IsValid(r.value, now)
    ensures r.Ok? ==> r.value == Build(t, title, body, data, deviceTokens, topic, priority, x)
    ensures r.Ok? ==> && r.value.notificationType == t && r.value.title == title && r.value.body == body
                      && r.value.deviceTokens == deviceTokens && r.value.topic == topic
                      && r.value.priority == priority && r.value.scheduledAt == x.scheduledAt
    ensures r.Err? && r.error.InvalidNotification? ==>
              && deviceTokens.Some? != topic.Some?
              && r.error.errors == Validate(Build(t, title, body, data, deviceTokens, topic, priority, x), now)
              && r.error.errors != []
  {
    if deviceTokens.None? && topic.None? then Err(MissingTarget)
    else if deviceTokens.Some? && topic.Some? then Err(ConflictingTargets)
    else
      var c := Build(t, title, body, data, deviceTokens, topic, priority, x);
      var errors := Validate(c, now);
      if |errors| > 0 then Err(InvalidNotification(errors)) else Ok(c)
  }

  /** Since the targets are checked first, a created notification's own
      validation never reports a targeting error; with exactly one target,
      creation succeeds exactly when the built notification is valid. */
  lemma CreateSucceedsIffValid(t: NotificationType, title: Option<string>, body: Option<string>, data: Option<Data>,
                               deviceTokens: Option<DeviceTokenList>, topic: Option<Topic>, priority: string,
                               x: Extras, now: Instant)
    requires deviceTokens.Some? != topic.Some?
    ensures var c := Build(t, title, body, data, deviceTokens, topic, priority, x);
            && NoTarget !in Validate(c, now) && BothTargets !in Validate(c, now)
            && (CreateNotification(t, title, body, data, deviceTokens, topic, priority, x, now).Ok? <==> IsValid(c, now))
  {
    ValidateTargets(Build(t, title, body, data, deviceTokens, topic, priority, x), now);
  }

  /** `validate_notification_type_requirements`. */
  function ValidateNotificationTypeRequirements(t: NotificationType, title: Option<string>, body: Option<string>,
                                                data: Option<Data>): (r: seq<ValidationError>)
    ensures |r| <= 2
    ensures TitleRequired(t.value) in r <==> GetTemplateConfig(t).requiresTitle && !Present(title)
    ensures BodyRequired(t.value) in r <==> GetTemplateConfig(t).requiresBody && !Present(body)
    ensures forall e :: e in r ==> e == TitleRequired(t.value) || e == BodyRequired(t.value)
  {
    TypeRequirementErrors(t, title, body, data.Some? && data.value != map[])
  }

  /** The service's stand-alone check is exactly the type part of the
      entity's `validate`: the entity's errors are the targeting errors, then
      the service's errors, then the timing errors. */
  lemma {:induction false} TypeCheckAgreesWithEntity(c: Content, now: Instant)
    ensures Validate(c, now) == TargetErrors(c)
                                + ValidateNotificationTypeRequirements(c.notificationType, c.title, c.body, Some(c.data))
                                + TimingErrors(c, now)
  {
  }

  /** What `process_notification_batch` returns. */
  datatype BatchSummary = BatchSummary(
    totalCount: nat,
    validCount: nat,
    invalidCount: int,
    typeGroups: seq<(string, nat)>,
    deviceNotifications: nat,
    topicNotifications: nat,
    totalTargets: nat)

  function TypeOf(n: Notification): string {
    n.content.notificationType.value
  }

  function CountValid(ns: seq<Notification>, now: Instant): (r: nat)
    ensures r <= |ns|
  {
    if ns == [] then 0 else CountValid(ns[..|ns| - 1], now) + (if IsValid(ns[|ns| - 1].content, now) then 1 else 0)
  }

  function CountDevices(ns: seq<Notification>): (r: nat)
    ensures r <= |ns|
  {
    if ns == [] then 0 else CountDevices(ns[..|ns| - 1]) + (if ns[|ns| - 1].content.deviceTokens.Some? then 1 else 0)
  }

  function CountTopics(ns: seq<Notification>): (r: nat)
    ensures r <= |ns|
  {
    if ns == [] then 0 else CountTopics(ns[..|ns| - 1]) + (if ns[|ns| - 1].content.topic.Some? then 1 else 0)
  }

  function SumTargets(ns: seq<Notification>): nat {
    if ns == [] then 0 else SumTargets(ns[..|ns| - 1]) + TargetCount(ns[|ns| - 1].content)
  }

  /** The type groups after the notifications `ns`, in first-seen order. */
  function TypeGroups(ns: seq<Notification>): Grouping.Groups<string, Notification> {
    if ns == [] then []
    else Grouping.Append(TypeGroups(ns[..|ns| - 1]), TypeOf(ns[|ns| - 1]), ns[|ns| - 1])
  }

  /** The notifications of type `v`, in batch order. */
  function OfType(ns: seq<Notification>, v: string): seq<Notification> {
    if ns == [] then []
    else OfType(ns[..|ns| - 1], v) + (if TypeOf(ns[|ns| - 1]) == v then [ns[|ns| - 1]] else [])
  }

  function TypesOf(ns: seq<Notification>): set<string> {
    set n | n in ns :: TypeOf(n)
  }

  /** Each type's group holds exactly that type's notifications, in order. */
  lemma {:induction false} TypeGroupsLookup(ns: seq<Notification>)
    ensures forall v :: Grouping.Lookup(TypeGroups(ns), v) == OfType(ns, v)
  {
    if ns != [] {
      var init, last := ns[..|ns| - 1], ns[|ns| - 1];
      TypeGroupsLookup(init);
      forall v
        ensures Grouping.Lookup(TypeGroups(ns), v) == OfType(ns, v)
      {
        Grouping.AppendLookup(TypeGroups(init), TypeOf(last), last, v);
      }
    }
  }

  /** No type has two groups. */
  lemma {:induction false} TypeGroupsDistinct(ns: seq<Notification>)
    ensures Grouping.DistinctKeys(TypeGroups(ns))
  {
    if ns != [] {
      var init, last := ns[..|ns| - 1], ns[|ns| - 1];
      TypeGroupsDistinct(init);
      Grouping.AppendDistinct(TypeGroups(init), TypeOf(last), last);
    }
  }

  /** There is a group for each type that occurs, and for no other. */
  lemma {:induction false} TypeGroupsKeys(ns: seq<Notification>)
    ensures forall v :: v in Grouping.Keys(TypeGroups(ns)) <==> v in TypesOf(ns)
  {
    if ns == [] {
      assert Grouping.Keys<string, Notification>([]) == [];
    } else {
      var init, last := ns[..|ns| - 1], ns[|ns| - 1];
      TypeGroupsKeys(init);
      Grouping.AppendKeys(TypeGroups(init), TypeOf(last), last);
      assert ns == init + [last];
      assert TypesOf(ns) == TypesOf(init) + {TypeOf(last)};
    }
  }

  /** Together the groups hold the batch. */
  lemma {:induction false} TypeGroupsFlatten(ns: seq<Notification>)
    ensures multiset(Grouping.Flatten(TypeGroups(ns))) == multiset(ns)
  {
    if ns != [] {
      var init, last := ns[..|ns| - 1], ns[|ns| - 1];
      TypeGroupsFlatten(init);
      Grouping.AppendFlatten(TypeGroups(init), TypeOf(last), last);
      assert ns == init + [last];
    }
  }

  /** Each type's group holds exactly that type's notifications, in order;
      there is one group per type that occurs; together the groups hold the
      batch. */
  lemma TypeGroupsFacts(ns: seq<Notification>)
    ensures forall v :: Grouping.Lookup(TypeGroups(ns), v) == OfType(ns, v)
    ensures Grouping.DistinctKeys(TypeGroups(ns))
    ensures forall v :: v in Grouping.Keys(TypeGroups(ns)) <==> v in TypesOf(ns)
    ensures multiset(Grouping.Flatten(TypeGroups(ns))) == multiset(ns)
  {
    TypeGroupsLookup(ns);
    TypeGroupsDistinct(ns);
    TypeGroupsKeys(ns);
    TypeGroupsFlatten(ns);
  }

  /** `process_notification_batch` at the instant `now`. */
  method ProcessNotificationBatch(ns: seq<Notification>, now: Instant) returns (s: BatchSummary)
    ensures s.totalCount == |ns|
    ensures s.validCount == CountValid(ns, now) && s.invalidCount == |ns| - s.validCount >= 0
    ensures s.typeGroups == Grouping.Sizes(TypeGroups(ns))
    ensures Grouping.Total(s.typeGroups) == |ns|
    ensures forall i :: 0 <= i < |s.typeGroups| ==> s.typeGroups[i].1 == |OfType(ns, s.typeGroups[i].0)|
    ensures forall v :: (exists i :: 0 <= i < |s.typeGroups| && s.typeGroups[i].0 == v) <==> v in TypesOf(ns)
    ensures s.deviceNotifications == CountDevices(ns) && s.topicNotifications == CountTopics(ns)
    ensures s.totalTargets == SumTargets(ns)
  {
    var groups: Grouping.Groups<string, Notification> := [];
    for i := 0 to |ns|
      invariant groups == TypeGroups(ns[..i])
    {
      var n := ns[i];
      assert ns[..i + 1][..i] == ns[..i];
      groups := Grouping.Append(groups, TypeOf(n), n);
    }
    assert ns[..|ns|] == ns;
    TypeGroupsFacts(ns);
    Grouping.SizesTotal(groups);
    assert |Grouping.Flatten(groups)| == |ns| by {
      assert |multiset(Grouping.Flatten(groups))| == |multiset(ns)|;
    }
    var sizes := Grouping.Sizes(groups);
    forall i | 0 <= i < |sizes|
      ensures sizes[i].1 == |OfType(ns, sizes[i].0)|
    {
      assert Grouping.Lookup(groups, groups[i].0) == groups[i].1 by {
        LookupOfDistinct(groups, i);
      }
    }
    forall v
      ensures (exists i :: 0 <= i < |sizes| && sizes[i].0 == v) <==> v in TypesOf(ns)
    {
      KeysIndex(groups, v);
    }
    var valid := CountValid(ns, now);
    s := BatchSummary(|ns|, valid, |ns| - valid, sizes, CountDevices(ns), CountTopics(ns), SumTargets(ns));
  }

  lemma {:induction false} LookupOfDistinct<K, V>(g: Grouping.Groups<K, V>, i: nat)
    requires Grouping.DistinctKeys(g) && i < |g|
    ensures Grouping.Lookup(g, g[i].0) == g[i].1
  {
    if i > 0 {
      assert Grouping.Keys(g) == [g[0].0] + Grouping.Keys(g[1..]);
      KeysIndexed(g);
      assert Grouping.Keys(g)[0] != Grouping.Keys(g)[i];
      assert Grouping.DistinctKeys(g[1..]) by {
        var ks := Grouping.Keys(g[1..]);
        forall a, b | 0 <= a < b < |ks|
          ensures ks[a] != ks[b]
        {
          assert ks[a] == Grouping.Keys(g)[a + 1] && ks[b] == Grouping.Keys(g)[b + 1];
        }
      }
      LookupOfDistinct(g[1..], i - 1);
    }
  }

  lemma {:induction false} KeysIndexed<K, V>(g: Grouping.Groups<K, V>)
    ensures |Grouping.Keys(g)| == |g|
    ensures forall i :: 0 <= i < |g| ==> Grouping.Keys(g)[i] == g[i].0
  {
    if g != [] {
      KeysIndexed(g[1..]);
    }
  }

  lemma KeysIndex<K, V>(g: Grouping.Groups<K, V>, k: K)
    ensures (exists i :: 0 <= i < |g| && g[i].0 == k) <==> k in Grouping.Keys(g)
  {
    KeysIndexed(g);
    if k in Grouping.Keys(g) {
      var i :| 0 <= i < |Grouping.Keys(g)| && Grouping.Keys(g)[i] == k;
      assert g[i].0 == k;
    }
  }

  lemma {:induction false} OneTargetKindCounts(ns: seq<Notification>)
    requires forall i :: 0 <= i < |ns| ==> ns[i].content.deviceTokens.Some? != ns[i].content.topic.Some?
    ensures CountDevices(ns) + CountTopics(ns) == |ns|
  {
    if ns != [] {
      OneTargetKindCounts(ns[..|ns| - 1]);
    }
  }

  lemma {:induction false} TargetedSum(ns: seq<Notification>)
    requires forall i :: 0 <= i < |ns| ==> TargetCount(ns[i].content) >= 1
    ensures SumTargets(ns) >= |ns|
  {
    if ns != [] {
      TargetedSum(ns[..|ns| - 1]);
    }
  }

  lemma {:induction false} AllValidCount(ns: seq<Notification>, now: Instant)
    requires forall i :: 0 <= i < |ns| ==> IsValid(ns[i].content, now)
    ensures CountValid(ns, now) == |ns|
  {
    if ns != [] {
      AllValidCount(ns[..|ns| - 1], now);
    }
  }

  /** In a batch of valid notifications each has exactly one target kind, so
      the device and topic counts split the batch; with non-empty token lists
      there are at least as many targets as notifications. */
  lemma ValidBatchCounts(ns: seq<Notification>, now: Instant)
    requires forall i :: 0 <= i < |ns| ==> IsValid(ns[i].content, now)
    ensures CountDevices(ns) + CountTopics(ns) == |ns|
    ensures (forall i :: 0 <= i < |ns| ==> HasFirstToken(ns[i].content)) ==> SumTargets(ns) >= |ns|
    ensures CountValid(ns, now) == |ns|
  {
    forall i | 0 <= i < |ns|
      ensures ns[i].content.deviceTokens.Some? != ns[i].content.topic.Some?
    {
      ValidHasTargetKind(ns[i].content, now);
    }
    OneTargetKindCounts(ns);
    if forall i :: 0 <= i < |ns| ==> HasFirstToken(ns[i].content) {
      forall i | 0 <= i < |ns|
        ensures TargetCount(ns[i].content) >= 1
      {
        ValidHasTarget(ns[i].content, now);
      }
      TargetedSum(ns);
    }
    AllValidCount(ns, now);
  }

  lemma ValidHasTargetKind(c: Content, now: Instant)
    requires IsValid(c, now)
    ensures c.deviceTokens.Some? != c.topic.Some?
  {
    ValidateTargets(c, now);
  }

  /** `should_retry_notification` on the notification's current counters,
      at the instant `now`. */
  function RetryDecision(s: Bookkeeping, expiresAt: Option<Instant>, maxRetries: int, now: Instant): (r: bool)
    ensures r <==> s.status == Failed && s.failedCount < maxRetries && (expiresAt.None? || expiresAt.value >= now)
  {
    if s.status != Failed then false
    else if s.failedCount >= maxRetries then false
    else if expiresAt.Some? && expiresAt.value < now then false
    else true
  }

  function ShouldRetry(n: Notification, now: Instant, maxRetries: int := 3): (r: bool)
    reads n
    ensures r <==> n.status == Failed && n.failedCount < maxRetries
                   && (n.content.expiresAt.None? || n.content.expiresAt.value >= now)
  {
    RetryDecision(n.Counters(), n.content.expiresAt, maxRetries, now)
  }

  /** A notification that was never marked failed is never retried; after
      `k` single failures (and any sends) from a fresh start, an unexpiring
      notification is retried exactly while `k` is below the limit. */
  lemma {:induction false} RetryBudget(ms: seq<Mark>, maxRetries: int, now: Instant)
    requires forall i :: 0 <= i < |ms| ==> ms[i].MarkedFailed? ==> ms[i].count == 1
    ensures !AnyFailure(ms) ==> !RetryDecision(Replay(Fresh, ms), None, maxRetries, now)
    ensures AnyFailure(ms) ==> (RetryDecision(Replay(Fresh, ms), None, maxRetries, now) <==> FailureCount(ms) < maxRetries)
  {
    ReplayStatus(Fresh, ms);
    ReplayCounts(Fresh, ms);
    SingleFailures(ms);
  }

  function FailureCount(ms: seq<Mark>): nat {
    if ms == [] then 0 else FailureCount(ms[..|ms| - 1]) + (if ms[|ms| - 1].MarkedFailed? then 1 else 0)
  }

  lemma {:induction false} SingleFailures(ms: seq<Mark>)
    requires forall i :: 0 <= i < |ms| ==> ms[i].MarkedFailed? ==> ms[i].count == 1
    ensures FailedTotal(ms) == FailureCount(ms)
  {
    if ms != [] {
      SingleFailures(ms[..|ms| - 1]);
    }
  }

  /** `get_notification_priority`: a non-empty override wins; otherwise the
      type's default, which is high exactly for alerts. */
  function GetNotificationPriority(t: NotificationType, overridePriority: Option<string>): (r: string)
    ensures Present(overridePriority) ==> r == overridePriority.value
    ensures !Present(overridePriority) ==> r == (if t.value == KindName(Alert) then "high" else "normal")
  {
    if Present(overridePriority) then overridePriority.value else GetTemplateConfig(t).defaultPriority
  }

  /** `estimate_delivery_time`: the schedule time if there is one, else the
      current time (the `currentTime` argument, or the clock) truncated to
      the second. */
  function EstimateDeliveryTime(c: Content, currentTime: Option<Instant>, clock: Instant): (r: Instant)
    ensures c.scheduledAt.Some? ==> r == c.scheduledAt.value
    ensures c.scheduledAt.None? ==>
              var now := currentTime.GetOr(clock);
              r % MicrosPerSecond == 0 && r <= now < r + MicrosPerSecond
  {
    var now := currentTime.GetOr(clock);
    if c.scheduledAt.Some? then c.scheduledAt.value else now - now % MicrosPerSecond
  }
}
