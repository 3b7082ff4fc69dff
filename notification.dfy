/** The notification entity: its content, its validation rules, its
    delivery counters and its message rendering
    (src/notification_service/domain/entities/notification.py). */
module Notifications {
  import opened Wrappers
  import opened Text
  import opened DeviceTokens
  import opened Topics
  import opened NotificationTypes

  /** A UTC instant, in microseconds since the epoch. */
  type Instant = int

  const MicrosPerSecond: int := 1_000_000
  const MicrosPerMinute: int := 60 * MicrosPerSecond
  /** The grace period a schedule time may lie in the past. */
  const ScheduleGrace: int := 5 * MicrosPerMinute

  /** The custom data payload; its values are modelled as strings. */
  type Data = map<string, string>

  /** Truthiness of an optional string: present and non-empty. */
  predicate Present(s: Option<string>) {
    s.Some? && s.value != ""
  }

  /** The fields of a notification that do not change once it is built. */
  datatype Content = Content(
    notificationType: NotificationType,
    title: Option<string>,
    body: Option<string>,
    data: Data,
    deviceTokens: Option<DeviceTokenList>,
    topic: Option<Topic>,
    createdAt: Instant,
    scheduledAt: Option<Instant>,
    expiresAt: Option<Instant>,
    priority: string,
    collapseKey: Option<string>,
    ttl: Option<int>)

  /** The keyword arguments the factories pass through unchanged;
      `createdAt` is the clock reading the field's default would take. */
  datatype Extras = Extras(
    createdAt: Instant,
    scheduledAt: Option<Instant>,
    expiresAt: Option<Instant>,
    collapseKey: Option<string>,
    ttl: Option<int>)

  /** `create_device_notification`: targets the list and no topic; missing
      or empty data becomes the empty payload. */
  function ForDevices(t: NotificationType, tokens: DeviceTokenList, title: Option<string>, body: Option<string>,
                      data: Option<Data>, priority: string, x: Extras): (r: Content)
    ensures r.deviceTokens == Some(tokens) && r.topic.None?
    ensures r.data == if data.Some? then data.value else map[]
    ensures && r.notificationType == t && r.title == title && r.body == body && r.priority == priority
            && r.createdAt == x.createdAt && r.scheduledAt == x.scheduledAt && r.expiresAt == x.expiresAt
            && r.collapseKey == x.collapseKey && r.ttl == x.ttl
    ensures TargetCount(r) == |tokens.tokens|
  {
    Content(t, title, body, data.GetOr(map[]), Some(tokens), None,
            x.createdAt, x.scheduledAt, x.expiresAt, priority, x.collapseKey, x.ttl)
  }

  /** `create_topic_notification`: targets the topic and no device. */
  function ForTopic(t: NotificationType, topic: Topic, title: Option<string>, body: Option<string>,
                    data: Option<Data>, priority: string, x: Extras): (r: Content)
    ensures r.topic == Some(topic) && r.deviceTokens.None?
    ensures r.data == if data.Some? then data.value else map[]
    ensures && r.notificationType == t && r.title == title && r.body == body && r.priority == priority
            && r.createdAt == x.createdAt && r.scheduledAt == x.scheduledAt && r.expiresAt == x.expiresAt
            && r.collapseKey == x.collapseKey && r.ttl == x.ttl
    ensures TargetCount(r) == 1
  {
    Content(t, title, body, data.GetOr(map[]), None, Some(topic),
            x.createdAt, x.scheduledAt, x.expiresAt, priority, x.collapseKey, x.ttl)
  }

  datatype ValidationError =
    | NoTarget
    | BothTargets
    | TitleRequired(typeValue: string)
    | BodyRequired(typeValue: string)
    | DataNotSupported(typeValue: string)
    | ScheduledInPast
    | Expired

  /** The position of each check in `validate`. */
  function Rank(e: ValidationError): nat {
    match e
    case NoTarget => 0
    case BothTargets => 1
    case TitleRequired(_) => 2
    case BodyRequired(_) => 3
    case DataNotSupported(_) => 4
    case ScheduledInPast => 5
    case Expired => 6
  }

  /** The errors come in the order of the checks, each at most once. */
  predicate InCheckOrder(r: seq<ValidationError>) {
    forall i, j :: 0 <= i < j < |r| ==> Rank(r[i]) < Rank(r[j])
  }

  function ErrorMessage(e: ValidationError): string {
    match e
    case NoTarget => "Notification must target either device tokens or a topic"
    case BothTargets => "Notification cannot target both device tokens and topic"
    case TitleRequired(v) => "Notification type '" + v + "' requires a title"
    case BodyRequired(v) => "Notification type '" + v + "' requires a body"
    case DataNotSupported(v) => "Notification type '" + v + "' does not support custom data"
    case ScheduledInPast => "Scheduled time cannot be in the past (with 5-minute buffer)"
    case Expired => "Expiration time cannot be in the past"
  }

  /** `t.replace(second=0, microsecond=0)`. */
  function FloorMinute(t: Instant): Instant {
    t - t % MicrosPerMinute
  }

  /** The earliest schedule time `validate` accepts at `now`: the start of
      the current minute, less five minutes. */
  function ScheduleCutoff(now: Instant): Instant {
    FloorMinute(now) - ScheduleGrace
  }

  /** A schedule time up to five minutes old is always accepted, one more
      than six minutes old never is, and the cut-off is minute-aligned. */
  lemma ScheduleGraceWindow(now: Instant)
    ensures now - 6 * MicrosPerMinute < ScheduleCutoff(now) <= now - 5 * MicrosPerMinute
    ensures ScheduleCutoff(now) % MicrosPerMinute == 0
  {
  }

  function TargetErrors(c: Content): (r: seq<ValidationError>)
    ensures InCheckOrder(r) && forall e :: e in r ==> Rank(e) <= 1
    ensures NoTarget in r <==> c.deviceTokens.None? && c.topic.None?
    ensures BothTargets in r <==> c.deviceTokens.Some? && c.topic.Some?
  {
    (if c.deviceTokens.None? && c.topic.None? then [NoTarget] else [])
    + (if c.deviceTokens.Some? && c.topic.Some? then [BothTargets] else [])
  }

  /** The type checks shared by `validate` and
      `validate_notification_type_requirements`. */
  function TypeRequirementErrors(t: NotificationType, title: Option<string>, body: Option<string>, hasData: bool)
    : (r: seq<ValidationError>)
    ensures InCheckOrder(r) && forall e :: e in r ==> 2 <= Rank(e) <= 4
    ensures TitleRequired(t.value) in r <==> GetTemplateConfig(t).requiresTitle && !Present(title)
    ensures BodyRequired(t.value) in r <==> GetTemplateConfig(t).requiresBody && !Present(body)
    ensures forall e :: e in r ==> !e.DataNotSupported?
  {
    var policy := GetTemplateConfig(t);
    (if policy.requiresTitle && !Present(title) then [TitleRequired(t.value)] else [])
    + (if policy.requiresBody && !Present(body) then [BodyRequired(t.value)] else [])
    + (if !policy.supportsData && hasData then [DataNotSupported(t.value)] else [])
  }

  function TimingErrors(c: Content, now: Instant): (r: seq<ValidationError>)
    ensures InCheckOrder(r) && forall e :: e in r ==> 5 <= Rank(e)
    ensures ScheduledInPast in r <==> c.scheduledAt.Some? && c.scheduledAt.value < ScheduleCutoff(now)
    ensures Expired in r <==> c.expiresAt.Some? && c.expiresAt.value < now
  {
    (if c.scheduledAt.Some? && c.scheduledAt.value < ScheduleCutoff(now) then [ScheduledInPast] else [])
    + (if c.expiresAt.Some? && c.expiresAt.value < now then [Expired] else [])
  }

  lemma ConcatInCheckOrder(a: seq<ValidationError>, b: seq<ValidationError>)
    requires InCheckOrder(a) && InCheckOrder(b)
    requires forall x, y :: x in a && y in b ==> Rank(x) < Rank(y)
    ensures InCheckOrder(a + b)
  {
    forall i, j | 0 <= i < j < |a + b|
      ensures Rank((a + b)[i]) < Rank((a + b)[j])
    {
      if j < |a| {
      } else if i >= |a| {
        assert (a + b)[i] == b[i - |a|] && (a + b)[j] == b[j - |a|];
      } else {
        assert (a + b)[i] in a && (a + b)[j] in b;
      }
    }
  }

  lemma InConcat(a: seq<ValidationError>, b: seq<ValidationError>, d: seq<ValidationError>, e: ValidationError)
    ensures e in a + b + d <==> e in a || e in b || e in d
  {
  }

  /** `validate` at the instant `now`: each failed check contributes its
      error, in check order, each at most once. The data check can never fire,
      since every type supports data. */
  function Validate(c: Content, now: Instant): (r: seq<ValidationError>)
    ensures InCheckOrder(r)
    ensures forall e :: e in r ==> !e.DataNotSupported?
  {
    var a := TargetErrors(c);
    var b := TypeRequirementErrors(c.notificationType, c.title, c.body, c.data != map[]);
    var d := TimingErrors(c, now);
    ConcatInCheckOrder(a, b);
    ConcatInCheckOrder(a + b, d);
    a + b + d
  }

  /** A notification is reported for its targets exactly when it has none
      or both. */
  lemma ValidateTargets(c: Content, now: Instant)
    ensures NoTarget in Validate(c, now) <==> c.deviceTokens.None? && c.topic.None?
    ensures BothTargets in Validate(c, now) <==> c.deviceTokens.Some? && c.topic.Some?
  {
    var b := TypeRequirementErrors(c.notificationType, c.title, c.body, c.data != map[]);
    InConcat(TargetErrors(c), b, TimingErrors(c, now), NoTarget);
    InConcat(TargetErrors(c), b, TimingErrors(c, now), BothTargets);
  }

  /** A missing or empty title is reported exactly when the type's policy
      requires one. */
  lemma ValidateTitleRequirement(c: Content, now: Instant)
    ensures TitleRequired(c.notificationType.value) in Validate(c, now) <==>
              GetTemplateConfig(c.notificationType).requiresTitle && !Present(c.title)
  {
    var b := TypeRequirementErrors(c.notificationType, c.title, c.body, c.data != map[]);
    InConcat(TargetErrors(c), b, TimingErrors(c, now), TitleRequired(c.notificationType.value));
  }

  /** A missing or empty body is reported exactly when the type's policy
      requires one. */
  lemma ValidateBodyRequirement(c: Content, now: Instant)
    ensures BodyRequired(c.notificationType.value) in Validate(c, now) <==>
              GetTemplateConfig(c.notificationType).requiresBody && !Present(c.body)
  {
    var b := TypeRequirementErrors(c.notificationType, c.title, c.body, c.data != map[]);
    InConcat(TargetErrors(c), b, TimingErrors(c, now), BodyRequired(c.notificationType.value));
  }

  /** A missing or empty title (body) is reported exactly when the type's
      policy requires one. */
  lemma ValidateTypeRequirements(c: Content, now: Instant)
    ensures TitleRequired(c.notificationType.value) in Validate(c, now) <==>
              GetTemplateConfig(c.notificationType).requiresTitle && !Present(c.title)
    ensures BodyRequired(c.notificationType.value) in Validate(c, now) <==>
              GetTemplateConfig(c.notificationType).requiresBody && !Present(c.body)
  {
    ValidateTitleRequirement(c, now);
    ValidateBodyRequirement(c, now);
  }

  /** A schedule time before the cut-off and an expiry before `now` are
      reported, and nothing else about timing is. */
  lemma ValidateTiming(c: Content, now: Instant)
    ensures ScheduledInPast in Validate(c, now) <==> c.scheduledAt.Some? && c.scheduledAt.value < ScheduleCutoff(now)
    ensures Expired in Validate(c, now) <==> c.expiresAt.Some? && c.expiresAt.value < now
  {
    var b := TypeRequirementErrors(c.notificationType, c.title, c.body, c.data != map[]);
    InConcat(TargetErrors(c), b, TimingErrors(c, now), ScheduledInPast);
    InConcat(TargetErrors(c), b, TimingErrors(c, now), Expired);
  }

  /** `is_valid`. */
  predicate IsValid(c: Content, now: Instant) {
    |Validate(c, now)| == 0
  }

  /** A notification is valid exactly when it has one kind of target, the
      title and body its type's policy asks for, a schedule time not before
      the cut-off and an expiry not before `now`. */
  lemma ValidIff(c: Content, now: Instant)
    ensures IsValid(c, now) <==>
              && c.deviceTokens.Some? != c.topic.Some?
              && (GetTemplateConfig(c.notificationType).requiresTitle ==> Present(c.title))
              && (GetTemplateConfig(c.notificationType).requiresBody ==> Present(c.body))
              && (c.scheduledAt.None? || c.scheduledAt.value >= ScheduleCutoff(now))
              && (c.expiresAt.None? || c.expiresAt.value >= now)
  {
    ValidateTargets(c, now);
    ValidateTypeRequirements(c, now);
    ValidateTiming(c, now);
  }

  /** `get_target_count`: the number of tokens, one for a topic, else none. */
  function TargetCount(c: Content): (r: nat)
    ensures r == 0 <==> if c.deviceTokens.Some? then c.deviceTokens.value.tokens == [] else c.topic.None?
    ensures c.deviceTokens.Some? ==> r == |c.deviceTokens.value.tokens|
  {
    if c.deviceTokens.Some? then |c.deviceTokens.value.tokens|
    else if c.topic.Some? then 1
    else 0
  }

  /** A valid notification whose token list is non-empty has a target. */
  lemma ValidHasTarget(c: Content, now: Instant)
    requires IsValid(c, now)
    requires c.deviceTokens.Some? ==> c.deviceTokens.value.tokens != []
    ensures TargetCount(c) >= 1
    ensures c.deviceTokens.Some? != c.topic.Some?
  {
    ValidateTargets(c, now);
  }

  datatype Status = Pending | Sent | Failed

  function StatusName(s: Status): string {
    match s
    case Pending => "pending"
    case Sent => "sent"
    case Failed => "failed"
  }

  /** The delivery bookkeeping of a notification. */
  datatype Bookkeeping = Bookkeeping(status: Status, sentCount: int, failedCount: int, errorMessage: Option<string>)

  const Fresh: Bookkeeping := Bookkeeping(Pending, 0, 0, None)

  /** One call of `mark_sent(count)` or `mark_failed(message, count)`. */
  datatype Mark = MarkedSent(count: int) | MarkedFailed(message: Option<string>, count: int)

  /** The effect of one mark: a send only moves a pending notification to
      sent; a failure always moves to failed and replaces the message. */
  function ApplyMark(s: Bookkeeping, m: Mark): (r: Bookkeeping)
    ensures m.MarkedSent? ==> r.sentCount == s.sentCount + m.count && r.failedCount == s.failedCount
    ensures m.MarkedFailed? ==> r.failedCount == s.failedCount + m.count && r.sentCount == s.sentCount
  {
    match m
    case MarkedSent(n) =>
      s.(sentCount := s.sentCount + n, status := if s.status == Pending then Sent else s.status)
    case MarkedFailed(msg, n) =>
      s.(failedCount := s.failedCount + n, errorMessage := msg, status := Failed)
  }

  /** The counters after a sequence of marks. */
  function Replay(s: Bookkeeping, ms: seq<Mark>): Bookkeeping {
    if ms == [] then s else ApplyMark(Replay(s, ms[..|ms| - 1]), ms[|ms| - 1])
  }

  function SentTotal(ms: seq<Mark>): int {
    if ms == [] then 0
    else SentTotal(ms[..|ms| - 1]) + (if ms[|ms| - 1].MarkedSent? then ms[|ms| - 1].count else 0)
  }

  function FailedTotal(ms: seq<Mark>): int {
    if ms == [] then 0
    else FailedTotal(ms[..|ms| - 1]) + (if ms[|ms| - 1].MarkedFailed? then ms[|ms| - 1].count else 0)
  }

  predicate AnyFailure(ms: seq<Mark>) {
    exists i :: 0 <= i < |ms| && ms[i].MarkedFailed?
  }

  /** The counters add up the marks' counts. */
  lemma {:induction false} ReplayCounts(s: Bookkeeping, ms: seq<Mark>)
    ensures Replay(s, ms).sentCount == s.sentCount + SentTotal(ms)
    ensures Replay(s, ms).failedCount == s.failedCount + FailedTotal(ms)
  {
    if ms != [] {
      ReplayCounts(s, ms[..|ms| - 1]);
    }
  }

  /** Failed is final: once a failure is marked, later sends do not undo
      it. The status is failed exactly when it started failed or a failure was
      marked; pending exactly when it started pending and nothing was marked. */
  lemma {:induction false} ReplayStatus(s: Bookkeeping, ms: seq<Mark>)
    ensures Replay(s, ms).status == Failed <==> s.status == Failed || AnyFailure(ms)
    ensures Replay(s, ms).status == Pending <==> s.status == Pending && ms == []
    ensures AnyFailure(ms) ==> Replay(s, ms).errorMessage == ms[LastFailure(ms)].message
    ensures !AnyFailure(ms) ==> Replay(s, ms).errorMessage == s.errorMessage
  {
    if ms != [] {
      var init := ms[..|ms| - 1];
      ReplayStatus(s, init);
      if AnyFailure(ms) && !ms[|ms| - 1].MarkedFailed? {
        var i :| 0 <= i < |ms| && ms[i].MarkedFailed?;
        assert init[i].MarkedFailed?;
      }
      if AnyFailure(init) {
        var i :| 0 <= i < |init| && init[i].MarkedFailed?;
        assert ms[i].MarkedFailed?;
      }
    }
  }

  /** The position of the last failure mark. */
  function LastFailure(ms: seq<Mark>): (i: nat)
    requires AnyFailure(ms)
    ensures i < |ms| && ms[i].MarkedFailed?
    ensures forall j :: i < j < |ms| ==> !ms[j].MarkedFailed?
  {
    if ms[|ms| - 1].MarkedFailed? then |ms| - 1
    else
      var init := ms[..|ms| - 1];
      var k :| 0 <= k < |ms| && ms[k].MarkedFailed?;
      assert init[k].MarkedFailed?;
      LastFailure(init)
  }

  /** The notification as the handlers hold it: fixed content and id, and
      counters updated in place. */
  class Notification {
    const id: string
    const content: Content
    var status: Status
    var sentCount: int
    var failedCount: int
    var errorMessage: Option<string>

    constructor (id: string, content: Content)
      ensures this.id == id && this.content == content
      ensures Counters() == Fresh
    {
      this.id := id;
      this.content := content;
      status := Pending;
      sentCount := 0;
      failedCount := 0;
      errorMessage := None;
    }

    function Counters(): Bookkeeping
      reads this
    {
      Bookkeeping(status, sentCount, failedCount, errorMessage)
    }

    /** `mark_sent(count)`. */
    method MarkSent(count: int := 1)
      modifies this
      ensures Counters() == ApplyMark(old(Counters()), MarkedSent(count))
    {
      sentCount := sentCount + count;
      if status == Pending {
        status := Sent;
      }
    }

    /** `mark_failed(error_message, count)`; the message may be missing. */
    method MarkFailed(message: Option<string>, count: int := 1)
      modifies this
      ensures Counters() == ApplyMark(old(Counters()), MarkedFailed(message, count))
    {
      failedCount := failedCount + count;
      errorMessage := message;
      status := Failed;
    }
  }

  /** The sequences of calls in the entity's tests end in the states those tests check. */
  method MarkScenarios() returns (sent: Notification, failed: Notification)
    ensures sent.status == Sent && sent.sentCount == 6 && sent.failedCount == 0
    ensures failed.status == Failed && failed.failedCount == 4 && failed.errorMessage == Some("Another error")
  {
    var c := Content(NotificationType("alert", None, "normal", None), None, None, map[], None, None,
                     0, None, None, "normal", None, None);
    sent := new Notification("n1", c);
    sent.MarkSent();
    sent.MarkSent(5);
    failed := new Notification("n2", c);
    failed.MarkFailed(Some("Test error"));
    failed.MarkFailed(Some("Another error"), 3);
  }

  /** Where a rendered message is addressed. */
  datatype MessageTarget = Untargeted | ToToken(token: string) | ToTopic(topic: string)

  /** The rendered message: the notification, data, android, apns and webpush
      sections (apns as a dictionary of header dictionaries) and the target. */
  datatype FcmMessage = FcmMessage(
    notification: map<string, string>,
    data: Data,
    android: map<string, string>,
    apns: map<string, map<string, string>>,
    webpush: map<string, string>,
    target: MessageTarget)

  datatype MessageError = MissingKey(key: string)

  /** A rendered notification needs the first token of a list. */
  predicate HasFirstToken(c: Content) {
    c.deviceTokens.Some? ==> |c.deviceTokens.value.tokens| > 0
  }

  function NotificationSection(c: Content): (r: map<string, string>)
    ensures forall k :: k in r ==> k == "title" || k == "body"
    ensures "title" in r <==> Present(c.title)
    ensures "body" in r <==> Present(c.body)
    ensures Present(c.title) ==> r["title"] == c.title.value
    ensures Present(c.body) ==> r["body"] == c.body.value
  {
    (if Present(c.title) then map["title" := c.title.value] else map[])
    + (if Present(c.body) then map["body" := c.body.value] else map[])
  }

  function Target(c: Content): MessageTarget
    requires HasFirstToken(c)
  {
    if c.deviceTokens.Some? then ToToken(c.deviceTokens.value.tokens[0].value)
    else if c.topic.Some? then ToTopic(c.topic.value.name)
    else Untargeted
  }

  /** The android options other than the priority. */
  function AndroidOptions(c: Content): (r: map<string, string>)
    ensures forall k :: k in r ==> k == "collapse_key" || k == "ttl"
    ensures "collapse_key" in r <==> Present(c.collapseKey)
    ensures Present(c.collapseKey) ==> r["collapse_key"] == c.collapseKey.value
    ensures "ttl" in r <==> c.ttl.Some? && c.ttl.value != 0
    ensures c.ttl.Some? && c.ttl.value != 0 ==> r["ttl"] == IntToDecimal(c.ttl.value) + "s"
  {
    (if Present(c.collapseKey) then map["collapse_key" := c.collapseKey.value] else map[])
    + (if c.ttl.Some? && c.ttl.value != 0 then map["ttl" := IntToDecimal(c.ttl.value) + "s"] else map[])
  }

  /** `to_fcm_message` as written: once a priority is set it writes into
      `apns["headers"]` of an empty apns section, which raises a missing-key
      error, so only notifications without a priority render. */
  function ToFcmMessageAsWritten(c: Content): (r: Result<FcmMessage, MessageError>)
    requires HasFirstToken(c)
    ensures r.Err? <==> c.priority != ""
  {
    if c.priority != "" then Err(MissingKey("headers"))
    else Ok(FcmMessage(NotificationSection(c), c.data, AndroidOptions(c), map[], map[], Target(c)))
  }

  /** The priority as the apns header carries it. */
  function ApnsPriority(priority: string): string {
    if priority == "high" then "10" else "5"
  }

  /** `to_fcm_message` with the apns headers section created before it is
      written to. */
  function ToFcmMessage(c: Content): (r: FcmMessage)
    requires HasFirstToken(c)
    ensures r.data == c.data
    ensures "title" in r.notification <==> Present(c.title)
    ensures "body" in r.notification <==> Present(c.body)
    ensures "priority" in r.android <==> c.priority != ""
    ensures c.priority != "" ==> r.android["priority"] == c.priority
    ensures "headers" in r.apns <==> c.priority != ""
    ensures c.priority != "" ==> r.apns["headers"] == map["apns-priority" := ApnsPriority(c.priority)]
    ensures r.target.ToToken? <==> c.deviceTokens.Some?
    ensures r.target.ToTopic? <==> c.deviceTokens.None? && c.topic.Some?
    ensures c.deviceTokens.Some? ==> r.target == ToToken(c.deviceTokens.value.tokens[0].value)
    ensures c.deviceTokens.None? && c.topic.Some? ==> r.target == ToTopic(c.topic.value.name)
    ensures forall k :: k in r.notification ==> k == "title" || k == "body"
    ensures Present(c.title) ==> r.notification["title"] == c.title.value
    ensures Present(c.body) ==> r.notification["body"] == c.body.value
    ensures forall k :: k in r.android ==> k == "priority" || k == "collapse_key" || k == "ttl"
    ensures "collapse_key" in r.android <==> Present(c.collapseKey)
    ensures Present(c.collapseKey) ==> r.android["collapse_key"] == c.collapseKey.value
    ensures "ttl" in r.android <==> c.ttl.Some? && c.ttl.value != 0
    ensures c.ttl.Some? && c.ttl.value != 0 ==> r.android["ttl"] == IntToDecimal(c.ttl.value) + "s"
    ensures r.webpush == map[]
  {
    var android := AndroidOptions(c);
    if c.priority != "" then
      FcmMessage(NotificationSection(c), c.data, android["priority" := c.priority],
                 map["headers" := map["apns-priority" := ApnsPriority(c.priority)]], map[], Target(c))
    else
      FcmMessage(NotificationSection(c), c.data, android, map[], map[], Target(c))
  }

  /** Where the as-written rendering succeeds, the corrected one gives the
      same message. */
  lemma FcmMessageAgreesWithoutPriority(c: Content)
    requires HasFirstToken(c) && c.priority == ""
    ensures ToFcmMessageAsWritten(c) == Ok(ToFcmMessage(c))
  {
  }

  /** Every validated priority is non-empty, so the as-written rendering
      fails for every notification built with one. */
  lemma FcmMessageFailsForValidPriority(c: Content)
    requires HasFirstToken(c) && IsPriorityName(c.priority)
    ensures ToFcmMessageAsWritten(c) == Err(MissingKey("headers"))
  {
  }

  /** The notification of the entity test's rendering example, built as the
      test builds it: the priority "high" goes to the notification type, so
      the notification keeps the factory's "normal". The token is built
      directly, without its validator. */
  function RenderingExample(createdAt: Instant): Content {
    ForDevices(NotificationType("alert", None, "high", None),
               DeviceTokenList([DeviceToken("test_token", Android)], DefaultMaxTokens),
               Some("Test Title"), Some("Test Body"), Some(map["key" := "value"]), "normal",
               Extras(createdAt, None, None, Some("test_collapse"), Some(3600)))
  }

  /** The example's android options: collapse key, ttl in seconds and priority. */
  lemma RenderingExampleAndroid(createdAt: Instant)
    ensures ToFcmMessage(RenderingExample(createdAt)).android
            == map["collapse_key" := "test_collapse", "ttl" := "3600s", "priority" := "normal"]
  {
    assert IntToDecimal(3600) == "3600" by {
      assert NatToDecimal(3) == "3";
      assert NatToDecimal(36) == "36";
      assert NatToDecimal(360) == "360";
    }
    assert IntToDecimal(3600) + "s" == "3600s";
    assert AndroidOptions(RenderingExample(createdAt)) == map["collapse_key" := "test_collapse", "ttl" := "3600s"];
  }

  /** The entity test's rendering example. The as-written rendering raises; the
      corrected one carries the title, body, data, token and android options
      the test expects, and the priority "normal" with apns priority "5" (the
      test expects "high" and "10", which the notification's own priority
      would need). */
  lemma FcmMessageTestCase(createdAt: Instant)
    ensures var c := RenderingExample(createdAt);
            && ToFcmMessageAsWritten(c).Err?
            && var m := ToFcmMessage(c);
            && m.notification == map["title" := "Test Title", "body" := "Test Body"]
            && m.data == map["key" := "value"]
            && m.target == ToToken("test_token")
            && m.android == map["collapse_key" := "test_collapse", "ttl" := "3600s", "priority" := "normal"]
            && m.apns["headers"]["apns-priority"] == "5"
  {
    var c := RenderingExample(createdAt);
    RenderingExampleAndroid(createdAt);
    FcmMessageFailsForValidPriority(c);
    assert NotificationSection(c) == map["title" := "Test Title", "body" := "Test Body"];
    assert ApnsPriority("normal") == "5";
  }
}
