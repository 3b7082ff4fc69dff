/** What the four sending routes do with a validated request: build the
    domain objects, call the messaging gateway once, record and publish the
    outcome, and answer (src/notification_service/presentation/api/v1/notifications.py).
    The gateway's reply and whether the store raises are inputs; the effects
    a handler has are returned in the order it has them. */
module Dispatch {
  import opened Wrappers
  import opened Text
  import opened DeviceTokens
  import opened Topics
  import opened NotificationTypes
  import opened Notifications
  import opened NotificationService
  import opened Requests

  /** `settings.max_tokens_per_request`. */
  const MaxTokensPerRequest: int := 500

  /** The gateway's reply: the success flag, the counts of a multicast or
      subscription, the message id of a single or topic send, the error text. */
  datatype GatewayReply = GatewayReply(
    success: bool,
    successCount: nat,
    failureCount: nat,
    messageId: Option<string>,
    error: Option<string>)

  datatype GatewayCall =
    | ToDevice(token: string)
    | ToDevices(tokens: seq<string>)
    | ToTopicName(topic: string)
    | SubscribeTokens(topic: string, tokens: seq<string>)

  datatype DeliveryStatus = Delivered | PartlyDelivered | NotDelivered

  function DeliveryStatusName(s: DeliveryStatus): string {
    match s
    case Delivered => "success"
    case PartlyDelivered => "partial"
    case NotDelivered => "failed"
  }

  /** The status dictionary kept under `notification:<id>`; the topic
      route keeps no counts, the batch route adds the batch id. */
  datatype StatusRecord = StatusRecord(
    notificationId: string,
    topic: Option<string>,
    typeValue: string,
    targetCount: Option<nat>,
    sentCount: Option<int>,
    failedCount: Option<int>,
    status: DeliveryStatus,
    errorMessage: Option<string>,
    messageId: Option<string>,
    batchId: Option<string>)

  datatype Event =
    | StatusEvent(record: StatusRecord)
    | BatchEvent(batchId: string, total: nat, successful: nat, failed: nat)
    | SubscriptionEvent(topic: string, subscribed: nat, failed: nat, failedTokens: seq<string>)

  datatype Effect =
    | Called(call: GatewayCall)
    | Stored(key: string, record: StatusRecord)
    | Published(channel: string, event: Event)

  /** Why a handler answers with status 500. */
  datatype Failure =
    | InvalidToken(index: nat, tokenErrors: seq<TokenError>)
    | InvalidTokenList(listError: ListError)
    | InvalidTopic(topicError: TopicError)
    | InvalidType(typeErrors: seq<TypeError>)
    | NotCreated(createError: CreateError)
    | StoreUnavailable
    | PublishUnavailable

  /** A handler's answer and the effects it had before answering. */
  datatype Handled<T> = Handled(response: Result<T, Failure>, effects: seq<Effect>)

  /** Whether the store's `set` and `publish` raise for this request. */
  datatype Store = Store(setFails: bool, publishFails: bool)

  /** Builds each element in order; the first one that fails aborts the
      build, reporting its position and error. */
  function BuildEach<T, U, E>(xs: seq<T>, build: T -> Result<U, E>): (r: Result<seq<U>, (nat, E)>)
    ensures r.Ok? ==> |r.value| == |xs| && forall i :: 0 <= i < |xs| ==> build(xs[i]) == Ok(r.value[i])
    ensures r.Err? ==> && r.error.0 < |xs| && build(xs[r.error.0]) == Err(r.error.1)
                       && forall j :: 0 <= j < r.error.0 ==> build(xs[j]).Ok?
  {
    if xs == [] then Ok([])
    else match build(xs[0])
      case Err(e) => Err((0, e))
      case Ok(u) =>
        match BuildEach(xs[1..], build)
        case Err((k, e)) => Err((k + 1, e))
        case Ok(rest) => Ok([u] + rest)
  }

  /** The device tokens of a request, built in order; the first one that
      does not validate aborts the build. */
  function BuildTokens(ts: seq<TokenRequest>): (r: Result<seq<DeviceToken>, Failure>)
    ensures r.Ok? ==> |r.value| == |ts|
                      && forall i :: 0 <= i < |ts| ==> NewDeviceToken(ts[i].token, ts[i].platform) == Ok(r.value[i])
    ensures r.Err? ==> && r.error.InvalidToken? && r.error.index < |ts|
                       && NewDeviceToken(ts[r.error.index].token, ts[r.error.index].platform) == Err(r.error.tokenErrors)
                       && forall j :: 0 <= j < r.error.index ==> NewDeviceToken(ts[j].token, ts[j].platform).Ok?
  {
    match BuildEach(ts, (t: TokenRequest) => NewDeviceToken(t.token, t.platform))
    case Ok(tokens) => Ok(tokens)
    case Err((k, e)) => Err(InvalidToken(k, e))
  }

  /** The device send and batch routes' domain steps: the token list, the
      type, then the notification, which must validate at `now`. */
  function PrepareSend(req: SendRequest, now: Instant): Result<Content, Failure> {
    match BuildTokens(req.deviceTokens)
    case Err(f) => Err(f)
    case Ok(tokens) =>
      match NewDeviceTokenList(tokens, MaxTokensPerRequest)
      case Err(e) => Err(InvalidTokenList(e))
      case Ok(list) =>
        match NewNotificationType(req.notificationType, None, Some(req.priority), None)
        case Err(es) => Err(InvalidType(es))
        case Ok(t) =>
          match CreateNotification(t, req.title, req.body, Some(req.data), Some(list), None, req.priority,
                                   Extras(now, req.scheduledAt, None, req.collapseKey, req.ttl), now)
          case Err(e) => Err(NotCreated(e))
          case Ok(c) => Ok(c)
  }

  /** A prepared send is a valid notification at `now` aimed at one
      distinct token per requested token, at most the per-request limit. */
  lemma PreparedSendFacts(req: SendRequest, now: Instant)
    requires PrepareSend(req, now).Ok?
    ensures var c := PrepareSend(req, now).value;
            && IsValid(c, now)
            && c.deviceTokens.Some? && c.topic.None?
            && |Recipients(c)| == |req.deviceTokens|
            && 0 < |req.deviceTokens| <= MaxTokensPerRequest
            && Distinct(Recipients(c))
            && c.priority == req.priority
  {
  }

  /** The token values a prepared send goes to. */
  function Recipients(c: Content): seq<string> {
    if c.deviceTokens.Some? then TokenValues(c.deviceTokens.value.tokens) else []
  }

  /** One token is sent to singly, several by one multicast. */
  function CallFor(values: seq<string>): (r: GatewayCall)
    ensures r.ToDevice? <==> |values| == 1
    ensures r.ToDevice? ==> r.token == values[0]
    ensures r.ToDevices? ==> r.tokens == values
  {
    if |values| == 1 then ToDevice(values[0]) else ToDevices(values)
  }

  /** The status, sent and failed counts a send to `n` tokens reports. */
  datatype Outcome = Outcome(status: DeliveryStatus, sent: int, failed: int)

  function Delivery(n: nat, reply: GatewayReply): (d: Outcome)
    ensures d.status == NotDelivered <==> !reply.success
    ensures d.status == PartlyDelivered <==> reply.success && n != 1 && reply.failureCount > 0
    ensures n == 1 && reply.success ==> d.sent == 1 && d.failed == 0
    ensures !reply.success ==> d.sent == 0 && d.failed == (if n == 1 then 1 else n)
    ensures reply.success && n != 1 ==> d.sent == reply.successCount && d.failed == reply.failureCount
  {
    if n == 1 then
      if reply.success then Outcome(Delivered, 1, 0) else Outcome(NotDelivered, 0, 1)
    else if reply.success then
      Outcome(if reply.failureCount > 0 then PartlyDelivered else Delivered, reply.successCount, reply.failureCount)
    else
      Outcome(NotDelivered, 0, n)
  }

  /** Every target is accounted for once: a single send counts one token,
      a failed multicast counts all of them as failed, and a multicast the
      gateway answered counts what the gateway counted. */
  lemma DeliveryAccounts(n: nat, reply: GatewayReply)
    requires n >= 1
    requires n != 1 && reply.success ==> reply.successCount + reply.failureCount == n
    ensures Delivery(n, reply).sent + Delivery(n, reply).failed == n
    ensures Delivery(n, reply).sent >= 0 && Delivery(n, reply).failed >= 0
    ensures Delivery(n, reply).status == Delivered <==> reply.success && Delivery(n, reply).failed == 0
  {
  }

  /** The marks the device route applies to the notification. */
  function SendMarks(n: nat, reply: GatewayReply): seq<Mark> {
    if n == 1 then
      if reply.success then [MarkedSent(1)] else [MarkedFailed(reply.error, 1)]
    else if reply.success then
      [MarkedSent(reply.successCount)]
      + (if reply.failureCount > 0 then [MarkedFailed(Some("Some devices failed"), reply.failureCount)] else [])
    else
      [MarkedFailed(reply.error, 1)]
  }

  /** Replaying one or two marks applies them in turn. */
  lemma ReplayOne(s: Bookkeeping, m: Mark)
    ensures Replay(s, [m]) == ApplyMark(s, m)
  {
    assert [m][..0] == [];
  }

  lemma ReplayTwo(s: Bookkeeping, a: Mark, b: Mark)
    ensures Replay(s, [a, b]) == ApplyMark(ApplyMark(s, a), b)
  {
    assert [a, b][..1] == [a];
    ReplayOne(s, a);
  }

  /** The notification's own status agrees with the reported one (sent when
      delivered, failed otherwise) and so does its sent count; its failed
      count does too, except after a failed multicast, which marks one
      failure however many tokens were reported failed. */
  lemma EntityMatchesReport(n: nat, reply: GatewayReply)
    requires n >= 1
    ensures var s := Replay(Fresh, SendMarks(n, reply));
            var d := Delivery(n, reply);
            && (s.status == Sent <==> d.status == Delivered)
            && (s.status == Failed <==> d.status != Delivered)
            && s.sentCount == d.sent
            && s.failedCount == (if !reply.success then 1 else d.failed)
  {
    var d := Delivery(n, reply);
    if n != 1 && reply.success && reply.failureCount > 0 {
      var a, b := MarkedSent(reply.successCount), MarkedFailed(Some("Some devices failed"), reply.failureCount);
      assert SendMarks(n, reply) == [a, b];
      ReplayTwo(Fresh, a, b);
      assert d == Outcome(PartlyDelivered, reply.successCount, reply.failureCount);
    } else if n != 1 && reply.success {
      assert SendMarks(n, reply) == [MarkedSent(reply.successCount)];
      ReplayOne(Fresh, MarkedSent(reply.successCount));
      assert d == Outcome(Delivered, reply.successCount, reply.failureCount);
    } else if reply.success {
      assert SendMarks(n, reply) == [MarkedSent(1)];
      ReplayOne(Fresh, MarkedSent(1));
      assert d == Outcome(Delivered, 1, 0);
    } else {
      assert SendMarks(n, reply) == [MarkedFailed(reply.error, 1)];
      ReplayOne(Fresh, MarkedFailed(reply.error, 1));
      assert d.status == NotDelivered && d.sent == 0;
    }
  }

  datatype NotificationResult = NotificationResult(
    notificationId: string,
    status: DeliveryStatus,
    sentCount: int,
    failedCount: int,
    errorMessage: Option<string>,
    targetCount: nat)

  datatype SendResponse = SendResponse(
    success: bool,
    notificationId: string,
    results: seq<NotificationResult>,
    totalSent: int,
    totalFailed: int,
    totalTargets: nat)

  function SendRecord(id: string, c: Content, d: Outcome, reply: GatewayReply): StatusRecord {
    StatusRecord(id, None, c.notificationType.value, Some(TargetCount(c)), Some(d.sent), Some(d.failed),
                 d.status, reply.error, reply.messageId, None)
  }

  /** The device route after the gateway answered: store, publish, answer. */
  function SendAfterCall(id: string, c: Content, reply: GatewayReply, store: Store): Handled<SendResponse> {
    var values := Recipients(c);
    var d := Delivery(|values|, reply);
    var record := SendRecord(id, c, d, reply);
    var called := [Called(CallFor(values))];
    if store.setFails then Handled(Err(StoreUnavailable), called)
    else if store.publishFails then Handled(Err(PublishUnavailable), called + [Stored("notification:" + id, record)])
    else
      Handled(Ok(SendResponse(d.status != NotDelivered, id,
                              [NotificationResult(id, d.status, d.sent, d.failed, reply.error, |values|)],
                              d.sent, d.failed, TargetCount(c))),
              called + [Stored("notification:" + id, record),
                        Published("notification.sent", StatusEvent(record))])
  }

  /** `send_notification`. */
  function SendSpec(req: SendRequest, id: string, now: Instant, reply: GatewayReply, store: Store): Handled<SendResponse> {
    match PrepareSend(req, now)
    case Err(f) => Handled(Err(f), [])
    case Ok(c) => SendAfterCall(id, c, reply, store)
  }

  /** A prepared send targets its tokens, one per requested token. */
  lemma PreparedRecipients(req: SendRequest, now: Instant)
    requires PrepareSend(req, now).Ok?
    ensures PrepareSend(req, now).value.deviceTokens.Some?
    ensures |Recipients(PrepareSend(req, now).value)| == |req.deviceTokens|
  {
    PreparedSendFacts(req, now);
  }

  /** After the gateway answered a send to a device notification: one gateway
      call to its tokens (singly for one token), then the record stored, then
      that same record published; an answer only when both succeed, reporting
      success unless the send failed outright, with one result covering all
      the targets. */
  lemma SendAfterCallFacts(id: string, c: Content, reply: GatewayReply, store: Store)
    requires c.deviceTokens.Some?
    ensures var h := SendAfterCall(id, c, reply, store);
            var values := Recipients(c);
            var d := Delivery(|values|, reply);
            && 1 <= |h.effects| <= 3
            && h.effects[0] == Called(CallFor(values))
            && (h.response.Ok? <==> !store.setFails && !store.publishFails)
            && (|h.effects| == 3 ==> h.effects[1].Stored? && h.effects[2] == Published("notification.sent", StatusEvent(h.effects[1].record)))
            && (h.response.Ok? ==>
                  && |h.effects| == 3
                  && h.response.value.success == (d.status != NotDelivered)
                  && h.response.value.totalSent == d.sent && h.response.value.totalFailed == d.failed
                  && h.response.value.totalTargets == |values|
                  && |h.response.value.results| == 1
                  && h.response.value.results[0].targetCount == |values|)
  {
  }

  /** What the device route promises: nothing is sent unless the request
      builds a valid notification; then it goes to one target per requested
      token, as the facts after the call describe. */
  lemma {:induction false} SendHandlerFacts(req: SendRequest, id: string, now: Instant, reply: GatewayReply, store: Store)
    ensures PrepareSend(req, now).Err? ==>
              SendSpec(req, id, now, reply, store) == Handled(Err(PrepareSend(req, now).error), [])
    ensures PrepareSend(req, now).Ok? ==>
              && SendSpec(req, id, now, reply, store) == SendAfterCall(id, PrepareSend(req, now).value, reply, store)
              && PrepareSend(req, now).value.deviceTokens.Some?
              && |Recipients(PrepareSend(req, now).value)| == |req.deviceTokens|
  {
    if PrepareSend(req, now).Ok? {
      PreparedRecipients(req, now);
    }
  }

  /** The marks the device route applies to a fresh notification after the
      gateway answered a send to `count` tokens. */
  method MarkDelivery(n: Notification, count: nat, reply: GatewayReply)
    requires n.Counters() == Fresh
    modifies n
    ensures n.Counters() == Replay(Fresh, SendMarks(count, reply))
  {
    if count == 1 {
      if reply.success {
        n.MarkSent();
        ReplayOne(Fresh, MarkedSent(1));
      } else {
        n.MarkFailed(reply.error);
        ReplayOne(Fresh, MarkedFailed(reply.error, 1));
      }
    } else if reply.success {
      n.MarkSent(reply.successCount);
      if reply.failureCount > 0 {
        n.MarkFailed(Some("Some devices failed"), reply.failureCount);
        ReplayTwo(Fresh, MarkedSent(reply.successCount), MarkedFailed(Some("Some devices failed"), reply.failureCount));
      } else {
        ReplayOne(Fresh, MarkedSent(reply.successCount));
      }
    } else {
      n.MarkFailed(reply.error);
      ReplayOne(Fresh, MarkedFailed(reply.error, 1));
    }
  }

  /** `send_notification` with the notification it holds: `id` is the
      handler's own identifier, used for the record and the answer;
      `entityId` is the one the notification is created with. The
      notification is created only for a valid request and ends with the
      marks the gateway's reply calls for. */
  method SendNotification(req: SendRequest, id: string, entityId: string, now: Instant, reply: GatewayReply, store: Store)
    returns (h: Handled<SendResponse>, entity: Option<Notification>)
    ensures h == SendSpec(req, id, now, reply, store)
    ensures entity.Some? <==> PrepareSend(req, now).Ok?
    ensures entity.Some? ==> && fresh(entity.value) && entity.value.id == entityId
                             && entity.value.content == PrepareSend(req, now).value
                             && entity.value.Counters() == Replay(Fresh, SendMarks(|req.deviceTokens|, reply))
  {
    var prepared := PrepareSend(req, now);
    if prepared.Err? {
      return Handled(Err(prepared.error), []), None;
    }
    var c := prepared.value;
    var n := new Notification(entityId, c);
    PreparedSendFacts(req, now);
    MarkDelivery(n, |Recipients(c)|, reply);
    h := SendAfterCall(id, c, reply, store);
    entity := Some(n);
  }

  /** The topic route's domain steps. */
  function PrepareTopic(req: TopicRequest, now: Instant): Result<Content, Failure> {
    match NewTopic(req.topic, None)
    case Err(e) => Err(InvalidTopic(e))
    case Ok(topic) =>
      match NewNotificationType(req.notificationType, None, Some(req.priority), None)
      case Err(es) => Err(InvalidType(es))
      case Ok(t) =>
        match CreateNotification(t, req.title, req.body, Some(req.data), None, Some(topic), req.priority,
                                 Extras(now, req.scheduledAt, None, req.collapseKey, req.ttl), now)
        case Err(e) => Err(NotCreated(e))
        case Ok(c) => Ok(c)
  }

  /** A prepared topic send is a valid notification at `now` aimed at the
      stripped topic name. */
  lemma PreparedTopicFacts(req: TopicRequest, now: Instant)
    requires PrepareTopic(req, now).Ok?
    ensures var c := PrepareTopic(req, now).value;
            && IsValid(c, now) && c.topic.Some? && c.deviceTokens.None?
            && c.topic.value.name == Strip(req.topic)
  {
  }

  datatype TopicResponse = TopicResponse(success: bool, notificationId: string, topic: string, messageId: Option<string>)

  function TopicAfterCall(id: string, c: Content, reply: GatewayReply, store: Store): Handled<TopicResponse>
    requires c.topic.Some?
  {
    var name := c.topic.value.name;
    var status := if reply.success then Delivered else NotDelivered;
    var messageId := if reply.success then reply.messageId else None;
    var record := StatusRecord(id, Some(name), c.notificationType.value, None, None, None,
                               status, reply.error, messageId, None);
    var called := [Called(ToTopicName(name))];
    if store.setFails then Handled(Err(StoreUnavailable), called)
    else if store.publishFails then Handled(Err(PublishUnavailable), called + [Stored("notification:" + id, record)])
    else
      Handled(Ok(TopicResponse(status == Delivered, id, name, messageId)),
              called + [Stored("notification:" + id, record), Published("notification.topic.sent", StatusEvent(record))])
  }

  function TopicSpec(req: TopicRequest, id: string, now: Instant, reply: GatewayReply, store: Store): Handled<TopicResponse> {
    match PrepareTopic(req, now)
    case Err(f) => Handled(Err(f), [])
    case Ok(c) => TopicAfterCall(id, c, reply, store)
  }

  /** What the topic route promises: one gateway call to the stripped topic
      name when the request builds a valid notification, the stored record
      published as stored, and success reported exactly when the gateway
      succeeded, with its message id. */
  lemma {:induction false} TopicHandlerFacts(req: TopicRequest, id: string, now: Instant, reply: GatewayReply, store: Store)
    ensures var h := TopicSpec(req, id, now, reply, store);
            && (PrepareTopic(req, now).Err? ==> h.effects == [] && h.response.Err?)
            && (PrepareTopic(req, now).Ok? ==>
                  && h.effects[0] == Called(ToTopicName(Strip(req.topic)))
                  && (h.response.Ok? <==> !store.setFails && !store.publishFails)
                  && (|h.effects| == 3 ==> h.effects[1].Stored? && h.effects[2] == Published("notification.topic.sent", StatusEvent(h.effects[1].record)))
                  && (h.response.Ok? ==>
                        && h.response.value.success == reply.success
                        && h.response.value.topic == Strip(req.topic)
                        && h.response.value.messageId == (if reply.success then reply.messageId else None)))
  {
    if PrepareTopic(req, now).Ok? {
      PreparedTopicFacts(req, now);
    }
  }

  /** `send_topic_notification` with the notification it holds. */
  method SendTopicNotification(req: TopicRequest, id: string, entityId: string, now: Instant, reply: GatewayReply, store: Store)
    returns (h: Handled<TopicResponse>, entity: Option<Notification>)
    ensures h == TopicSpec(req, id, now, reply, store)
    ensures entity.Some? <==> PrepareTopic(req, now).Ok?
    ensures entity.Some? ==> && fresh(entity.value) && entity.value.id == entityId && entity.value.content == PrepareTopic(req, now).value
                             && entity.value.Counters() ==
                                  if reply.success then Bookkeeping(Sent, 1, 0, None)
                                  else Bookkeeping(Failed, 0, 1, reply.error)
  {
    var prepared := PrepareTopic(req, now);
    if prepared.Err? {
      return Handled(Err(prepared.error), []), None;
    }
    PreparedTopicFacts(req, now);
    var n := new Notification(entityId, prepared.value);
    if reply.success {
      n.MarkSent();
    } else {
      n.MarkFailed(reply.error);
    }
    h := TopicAfterCall(id, prepared.value, reply, store);
    entity := Some(n);
  }

  /** One item of a batch with what the outside world does for it: the
      notification's id, the gateway's reply and whether storing fails. */
  datatype BatchItem = BatchItem(request: SendRequest, id: string, reply: GatewayReply, setFails: bool)

  /** An item's entry in the batch answer: its send report, or a failed
      entry when it raised. */
  datatype ItemReport =
    | Reported(success: bool, result: NotificationResult)
    | Crashed

  /** How far an item got: rejected while building its notification, or
      sent to `targets` tokens with the gateway's reply and the store's
      behaviour. */
  datatype Attempt = Rejected | Attempted(targets: nat, reply: GatewayReply, setFails: bool)

  function AttemptOf(item: BatchItem, now: Instant): Attempt {
    match PrepareSend(item.request, now)
    case Err(_) => Rejected
    case Ok(c) => Attempted(|Recipients(c)|, item.reply, item.setFails)
  }

  /** A built item is sent to one target per requested token. */
  lemma AttemptTargets(item: BatchItem, now: Instant)
    requires PrepareSend(item.request, now).Ok?
    ensures AttemptOf(item, now) == Attempted(|item.request.deviceTokens|, item.reply, item.setFails)
  {
    PreparedSendFacts(item.request, now);
  }

  /** The entry for an attempt: a failed entry when the item raised (it was
      rejected, or storing its record failed), its send report otherwise. */
  function ReportFrom(id: string, a: Attempt): (r: ItemReport)
    ensures r.Crashed? <==> a.Rejected? || a.setFails
    ensures r.Reported? ==> r.success == a.reply.success && r.result.targetCount == a.targets
    ensures r.Reported? ==> r.result.notificationId == id && r.result.errorMessage == a.reply.error
    ensures r.Reported? ==> (r.result.status == NotDelivered <==> !a.reply.success)
    ensures r.Reported? && a.targets == 1 && a.reply.success ==> r.result.sentCount == 1 && r.result.failedCount == 0
    ensures r.Reported? && !a.reply.success ==> r.result.sentCount == 0 && r.result.failedCount == (if a.targets == 1 then 1 else a.targets)
    ensures r.Reported? && a.reply.success && a.targets != 1 ==>
              r.result.sentCount == a.reply.successCount && r.result.failedCount == a.reply.failureCount
  {
    if a.Rejected? || a.setFails then Crashed
    else
      var d := Delivery(a.targets, a.reply);
      Reported(d.status != NotDelivered, NotificationResult(id, d.status, d.sent, d.failed, a.reply.error, a.targets))
  }

  function ItemReportOf(item: BatchItem, now: Instant): ItemReport {
    ReportFrom(item.id, AttemptOf(item, now))
  }

  function ItemEffects(item: BatchItem, batchId: string, now: Instant): seq<Effect> {
    match PrepareSend(item.request, now)
    case Err(_) => []
    case Ok(c) =>
      var values := Recipients(c);
      var d := Delivery(|values|, item.reply);
      var record := SendRecord(item.id, c, d, item.reply).(targetCount := Some(|values|), batchId := Some(batchId));
      [Called(CallFor(values))] + (if item.setFails then [] else [Stored("notification:" + item.id, record)])
  }

  function BatchEffects(items: seq<BatchItem>, batchId: string, now: Instant): seq<Effect> {
    if items == [] then [] else BatchEffects(items[..|items| - 1], batchId, now) + ItemEffects(items[|items| - 1], batchId, now)
  }

  predicate Succeeded(r: ItemReport) {
    r.Reported? && r.success
  }

  function CountSucceeded(rs: seq<ItemReport>): (k: nat)
    ensures k <= |rs|
  {
    if rs == [] then 0 else CountSucceeded(rs[..|rs| - 1]) + (if Succeeded(rs[|rs| - 1]) then 1 else 0)
  }

  /** Nothing failed exactly when every entry succeeded. */
  lemma {:induction false} AllSucceededIff(rs: seq<ItemReport>)
    ensures CountSucceeded(rs) == |rs| <==> forall i :: 0 <= i < |rs| ==> Succeeded(rs[i])
  {
    if rs != [] {
      var init := rs[..|rs| - 1];
      AllSucceededIff(init);
      assert forall i :: 0 <= i < |init| ==> init[i] == rs[i];
    }
  }

  datatype BatchResponse = BatchResponse(
    success: bool,
    batchId: string,
    total: nat,
    successful: nat,
    failed: nat,
    results: seq<ItemReport>)

  /** `send_batch_notifications`, with each item counted once: an item
      succeeds when it was sent (fully or in part) and its record stored, and
      fails otherwise. Every item gets its entry, in order, and an item's
      entry depends on that item alone. */
  method SendBatch(items: seq<BatchItem>, batchId: string, now: Instant, publishFails: bool)
    returns (h: Handled<BatchResponse>)
    ensures h.response.Ok? <==> !publishFails
    ensures h.response.Err? ==> h.response.error == PublishUnavailable && h.effects == BatchEffects(items, batchId, now)
    ensures h.response.Ok? ==>
              var r := h.response.value;
              && |r.results| == |items| == r.total
              && (forall i :: 0 <= i < |items| ==> r.results[i] == ItemReportOf(items[i], now))
              && r.successful == CountSucceeded(r.results)
              && r.successful + r.failed == |items|
              && (r.success <==> forall i :: 0 <= i < |items| ==> Succeeded(r.results[i]))
              && h.effects == BatchEffects(items, batchId, now)
                              + [Published("notification.batch.sent", BatchEvent(batchId, |items|, r.successful, r.failed))]
  {
    var results, successful, failed, effects := ProcessItems(items, batchId, now);
    forall i | 0 <= i < |items|
      ensures results[i] == ItemReportOf(items[i], now)
    {
      ReportAt(items, now, i);
    }
    if publishFails {
      return Handled(Err(PublishUnavailable), effects);
    }
    AllSucceededIff(results);
    var event := BatchEvent(batchId, |items|, successful, failed);
    h := Handled(Ok(BatchResponse(failed == 0, batchId, |items|, successful, failed, results)),
                 effects + [Published("notification.batch.sent", event)]);
  }

  /** The entries of a batch answer, in item order. */
  function Reports(items: seq<BatchItem>, now: Instant): (rs: seq<ItemReport>)
    ensures |rs| == |items|
  {
    if items == [] then [] else Reports(items[..|items| - 1], now) + [ItemReportOf(items[|items| - 1], now)]
  }

  /** Each entry depends on its own item alone. */
  lemma {:induction false} ReportAt(items: seq<BatchItem>, now: Instant, i: nat)
    requires i < |items|
    ensures Reports(items, now)[i] == ItemReportOf(items[i], now)
  {
    var init := items[..|items| - 1];
    assert Reports(items, now) == Reports(init, now) + [ItemReportOf(items[|items| - 1], now)];
    if i < |items| - 1 {
      ReportAt(init, now, i);
      assert init[i] == items[i];
    }
  }

  /** The batch loop: each item in turn, counted once. */
  method ProcessItems(items: seq<BatchItem>, batchId: string, now: Instant)
    returns (results: seq<ItemReport>, successful: nat, failed: nat, effects: seq<Effect>)
    ensures results == Reports(items, now)
    ensures successful == CountSucceeded(results) && successful + failed == |items|
    ensures effects == BatchEffects(items, batchId, now)
  {
    results, successful, failed, effects := [], 0, 0, [];
    for i := 0 to |items|
      invariant results == Reports(items[..i], now)
      invariant successful == CountSucceeded(results) && successful + failed == i
      invariant effects == BatchEffects(items[..i], batchId, now)
    {
      assert items[..i + 1][..i] == items[..i];
      var report := ItemReportOf(items[i], now);
      CountSucceededSnoc(results, report);
      results := results + [report];
      if Succeeded(report) {
        successful := successful + 1;
      } else {
        failed := failed + 1;
      }
      effects := effects + ItemEffects(items[i], batchId, now);
    }
    assert items[..|items|] == items;
  }

  /** One more entry adds one to the count exactly when it succeeded. */
  lemma CountSucceededSnoc(rs: seq<ItemReport>, r: ItemReport)
    ensures CountSucceeded(rs + [r]) == CountSucceeded(rs) + (if Succeeded(r) then 1 else 0)
  {
    assert (rs + [r])[..|rs|] == rs;
  }

  /** As written, the loop reuses the batch's failure counter as the item's
      failed count: the value an item records. A failed send also bumps the
      counter it has just overwritten, so it records one failure more. */
  function RecordedFailedAsWritten(a: Attempt): (r: int)
    requires a.Attempted?
    ensures r == Delivery(a.targets, a.reply).failed <==> a.reply.success
    ensures !a.reply.success ==> r == (if a.targets == 1 then 2 else a.targets + 1)
  {
    var d := Delivery(a.targets, a.reply);
    if d.status == NotDelivered then d.failed + 1 else d.failed
  }

  /** As written, the counter after an item: a rejected item adds one to it;
      any other item replaces it with its recorded failed count, plus one
      when storing fails. */
  function FailedAfterAsWritten(failed: int, a: Attempt): int {
    if a.Rejected? then failed + 1
    else RecordedFailedAsWritten(a) + (if a.setFails then 1 else 0)
  }

  function FailedAsWritten(attempts: seq<Attempt>): (r: int)
    ensures (forall i :: 0 <= i < |attempts| ==> attempts[i].Rejected?) ==> r == |attempts|
  {
    if attempts == [] then 0
    else FailedAfterAsWritten(FailedAsWritten(attempts[..|attempts| - 1]), attempts[|attempts| - 1])
  }

  /** As written, an item counts as successful once the gateway accepted
      its send, even if storing its record then fails. */
  function SuccessfulAsWritten(attempts: seq<Attempt>): (r: nat)
    ensures r <= |attempts|
    ensures r == |attempts| <==> forall i :: 0 <= i < |attempts| ==> attempts[i].Attempted? && attempts[i].reply.success
  {
    if attempts == [] then 0
    else
      var a := attempts[|attempts| - 1];
      SuccessfulAsWritten(attempts[..|attempts| - 1]) + (if a.Attempted? && a.reply.success then 1 else 0)
  }

  /** The batch loop's two counters as written, over what each item came
      to (`AttemptOf`): a raised item adds one to
      `failed`; a sent item first overwrites `failed` with its own failed
      count, then adds one to `successful` when the gateway accepted it and
      one to `failed` when it did not, and one more to `failed` when storing
      its record raises. */
  method TallyAsWritten(attempts: seq<Attempt>) returns (successful: nat, failed: int)
    ensures successful == SuccessfulAsWritten(attempts)
    ensures failed == FailedAsWritten(attempts)
  {
    successful, failed := 0, 0;
    for i := 0 to |attempts|
      invariant successful == SuccessfulAsWritten(attempts[..i])
      invariant failed == FailedAsWritten(attempts[..i])
    {
      var a := attempts[i];
      assert attempts[..i + 1][..i] == attempts[..i] && attempts[..i + 1][i] == a;
      assert FailedAsWritten(attempts[..i + 1]) == FailedAfterAsWritten(failed, a);
      if a.Rejected? {
        failed := failed + 1;
      } else {
        var d := Delivery(a.targets, a.reply);
        failed := d.failed;
        if a.reply.success {
          successful := successful + 1;
        } else {
          failed := failed + 1;
        }
        if a.setFails {
          failed := failed + 1;
        }
      }
    }
    assert attempts[..|attempts|] == attempts;
  }

  /** As written, the batch's failed total is what the last item left in
      the counter: whatever failed earlier is forgotten once an item is sent. */
  lemma FailedTallyIsLastResidue(attempts: seq<Attempt>)
    requires attempts != [] && attempts[|attempts| - 1].Attempted?
    ensures var last := attempts[|attempts| - 1];
            FailedAsWritten(attempts) == RecordedFailedAsWritten(last) + (if last.setFails then 1 else 0)
  {
  }

  /** Counterexample: a batch whose first item is rejected and whose second
      is delivered to its one token reports, as written, one success and no
      failure, so the batch answers success; counted per item, one of the
      two entries failed. */
  lemma BatchFailureForgotten(reply: GatewayReply)
    requires reply.success
    ensures var attempts := [Rejected, Attempted(1, reply, false)];
            && FailedAsWritten(attempts) == 0
            && SuccessfulAsWritten(attempts) == 1
            && CountSucceeded([ReportFrom("first", attempts[0]), ReportFrom("second", attempts[1])]) == 1
  {
    var attempts := [Rejected, Attempted(1, reply, false)];
    assert attempts[..1] == [Rejected] && [Rejected][..0] == [];
    var rs := [ReportFrom("first", attempts[0]), ReportFrom("second", attempts[1])];
    assert rs[..1] == [Crashed] && [Crashed][..0] == [];
  }

  /** A request whose only token is too short to be a device token is
      rejected when the batch builds it. */
  lemma ShortTokenRejected(item: BatchItem, now: Instant)
    requires item.request.deviceTokens == [TokenRequest("short", "android")]
    ensures AttemptOf(item, now) == Rejected
  {
    var ts := item.request.deviceTokens;
    assert |Strip("short")| <= 5;
    assert ValidateTokenValue("short").Err?;
    assert NewDeviceToken(ts[0].token, ts[0].platform).Err?;
    assert BuildTokens(ts).Err?;
    assert PrepareSend(item.request, now).Err?;
  }

  /** Counterexample: a single-token send that fails is recorded as two
      failures, as written, while its entry counted per item reports one. */
  lemma SingleFailureCountedTwice(reply: GatewayReply)
    requires !reply.success
    ensures RecordedFailedAsWritten(Attempted(1, reply, false)) == 2
    ensures ReportFrom("only", Attempted(1, reply, false)).result.failedCount == 1
  {
  }

  /** An indexed error from the gateway, or one that only carries a text. */
  datatype GatewayError = Indexed(index: nat) | Described(message: string)

  datatype SubscribeReply = SubscribeReply(success: bool, successCount: nat, failureCount: nat, errors: seq<GatewayError>)

  datatype SubscribeResponse = SubscribeResponse(
    success: bool,
    topic: string,
    subscribed: nat,
    failed: nat,
    failedTokens: seq<string>)

  /** The tokens the indexed errors point at, in error order; errors
      without an index, or with one past the list, are skipped. */
  function FailedTokens(tokens: seq<string>, errors: seq<GatewayError>): (r: seq<string>)
    ensures |r| <= |errors|
    ensures forall t :: t in r ==> t in tokens
    ensures forall t :: t in r ==>
              exists k :: 0 <= k < |errors| && errors[k].Indexed? && errors[k].index < |tokens| && tokens[errors[k].index] == t
  {
    if errors == [] then []
    else
      var e := errors[|errors| - 1];
      FailedTokens(tokens, errors[..|errors| - 1])
      + (if e.Indexed? && e.index < |tokens| then [tokens[e.index]] else [])
  }

  /** Every indexed error inside the list contributes its token. */
  lemma {:induction false} FailedTokensComplete(tokens: seq<string>, errors: seq<GatewayError>, k: nat)
    requires k < |errors| && errors[k].Indexed? && errors[k].index < |tokens|
    ensures tokens[errors[k].index] in FailedTokens(tokens, errors)
  {
    if k < |errors| - 1 {
      FailedTokensComplete(tokens, errors[..|errors| - 1], k);
    }
  }

  /** `subscribe_to_topic`: one gateway call; on success the gateway's counts
      and the tokens its indexed errors name are published and returned; on
      failure every token is reported failed and nothing is published. */
  method SubscribeToTopic(req: SubscriptionRequest, reply: SubscribeReply, publishFails: bool)
    returns (h: Handled<SubscribeResponse>)
    ensures |h.effects| >= 1 && h.effects[0] == Called(SubscribeTokens(req.topic, req.deviceTokens))
    ensures !reply.success ==>
              h == Handled(Ok(SubscribeResponse(false, req.topic, 0, |req.deviceTokens|, req.deviceTokens)),
                           [Called(SubscribeTokens(req.topic, req.deviceTokens))])
    ensures reply.success ==>
              var failed := FailedTokens(req.deviceTokens, reply.errors);
              && (h.response.Ok? <==> !publishFails)
              && (h.response.Err? ==> h.response.error == PublishUnavailable && |h.effects| == 1)
              && (h.response.Ok? ==>
                    && h.response.value == SubscribeResponse(true, req.topic, reply.successCount, reply.failureCount, failed)
                    && h.effects[1..] == [Published("topic.subscription",
                                                    SubscriptionEvent(req.topic, reply.successCount, reply.failureCount, failed))])
  {
    var called := [Called(SubscribeTokens(req.topic, req.deviceTokens))];
    if !reply.success {
      return Handled(Ok(SubscribeResponse(false, req.topic, 0, |req.deviceTokens|, req.deviceTokens)), called);
    }
    var failedTokens: seq<string> := [];
    for i := 0 to |reply.errors|
      invariant failedTokens == FailedTokens(req.deviceTokens, reply.errors[..i])
    {
      assert reply.errors[..i + 1][..i] == reply.errors[..i];
      var e := reply.errors[i];
      if e.Indexed? && e.index < |req.deviceTokens| {
        failedTokens := failedTokens + [req.deviceTokens[e.index]];
      }
    }
    assert reply.errors[..|reply.errors|] == reply.errors;
    if publishFails {
      return Handled(Err(PublishUnavailable), called);
    }
    var event := SubscriptionEvent(req.topic, reply.successCount, reply.failureCount, failedTokens);
    h := Handled(Ok(SubscribeResponse(true, req.topic, reply.successCount, reply.failureCount, failedTokens)),
                 called + [Published("topic.subscription", event)]);
  }
}
