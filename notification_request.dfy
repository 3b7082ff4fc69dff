/** The request bodies the API accepts and the checks each field passes
    before a handler runs (src/notification_service/application/dto/notification_request.py).
    Each field's check runs; a request is rejected with the errors of every
    failing field, in field order. */
module Requests {
  import opened Wrappers
  import opened Text
  import opened DeviceTokens
  import opened Topics
  import opened NotificationTypes
  import opened Notifications

  const MaxRequestTokens: nat := 500
  const MaxTtlSeconds: int := 2419200
  const MaxBatchSize: nat := 100

  datatype TokenRequest = TokenRequest(token: string, platform: string)

  datatype FieldError =
    | PlatformInvalid(index: nat)
    | NoRequestTokens
    | TooManyRequestTokens
    | DuplicateRequestTokens
    | TypeEmpty
    | PriorityInvalid
    | TtlOutOfRange
    | TopicInvalid(topicError: TopicError)
    | NoNotifications
    | TooManyNotifications
    | ItemInvalid(index: nat, errors: seq<FieldError>)
    | SubscriptionTokensInvalid(tokensError: SubscriptionError)

  /** A field check's outcome: the validated value or the field's errors. */
  type Checked<T> = Result<T, seq<FieldError>>

  function Errors<T>(r: Checked<T>): seq<FieldError> {
    if r.Ok? then [] else r.error
  }

  /** `DeviceTokenRequest`'s platform check: case-insensitive, stored
      lower-cased; the token itself is not checked. */
  function CheckTokenRequest(t: TokenRequest): (r: Option<TokenRequest>)
    ensures r.Some? <==> ParsePlatform(t.platform).Some?
    ensures r.Some? ==> r.value.token == t.token && r.value.platform == PlatformName(ParsePlatform(t.platform).value)
  {
    match ParsePlatform(t.platform)
    case Some(p) => Some(TokenRequest(t.token, PlatformName(p)))
    case None => None
  }

  /** The positions of the entries whose platform is invalid, in order. */
  function BadPlatforms(v: seq<TokenRequest>): (r: seq<FieldError>)
    ensures forall e :: e in r ==> e.PlatformInvalid? && e.index < |v| && CheckTokenRequest(v[e.index]).None?
    ensures forall i :: 0 <= i < |v| && CheckTokenRequest(v[i]).None? ==> PlatformInvalid(i) in r
    ensures r == [] <==> forall i :: 0 <= i < |v| ==> CheckTokenRequest(v[i]).Some?
  {
    if v == [] then []
    else
      var init := BadPlatforms(v[..|v| - 1]);
      var r := init + (if CheckTokenRequest(v[|v| - 1]).None? then [PlatformInvalid(|v| - 1)] else []);
      assert forall i :: 0 <= i < |v| - 1 ==> v[..|v| - 1][i] == v[i];
      r
  }

  function TokenStrings(v: seq<TokenRequest>): (r: seq<string>)
    ensures |r| == |v| && forall i :: 0 <= i < |v| ==> r[i] == v[i].token
  {
    seq(|v|, i requires 0 <= i < |v| => v[i].token)
  }

  /** The send request's `device_tokens`: every entry must pass its own
      check first; only then are the list checks (one to 500 entries, no
      token string twice) applied. */
  function CheckDeviceTokens(v: seq<TokenRequest>): (r: Checked<seq<TokenRequest>>)
    ensures r.Ok? <==> (forall i :: 0 <= i < |v| ==> CheckTokenRequest(v[i]).Some?)
                       && 0 < |v| <= MaxRequestTokens && Distinct(TokenStrings(v))
    ensures r.Ok? ==> |r.value| == |v| && forall i :: 0 <= i < |v| ==> Some(r.value[i]) == CheckTokenRequest(v[i])
    ensures r.Err? ==> r.error != []
  {
    var bad := BadPlatforms(v);
    DistinctIffNoCollapse(TokenStrings(v));
    if bad != [] then Err(bad)
    else if v == [] then Err([NoRequestTokens])
    else if |v| > MaxRequestTokens then Err([TooManyRequestTokens])
    else if |TokenStrings(v)| != |Elements(TokenStrings(v))| then Err([DuplicateRequestTokens])
    else Ok(seq(|v|, i requires 0 <= i < |v| => CheckTokenRequest(v[i]).value))
  }

  /** The requests' `notification_type` check: only blank values are
      refused; the value is lower-cased (the type's own format rule is
      applied later, when the handler builds the type). */
  function CheckTypeName(v: string): (r: Checked<string>)
    ensures r.Ok? ==> r.value == Lower(v)
    ensures r.Err? ==> r.error == [TypeEmpty]
  {
    if |v| == 0 || |Strip(v)| == 0 then Err([TypeEmpty]) else Ok(Lower(v))
  }

  /** The request check refuses exactly the blank values, like the type's own
      check; every value the type accepts passes it, unchanged by it. */
  lemma {:induction false} TypeNameCheckWeaker(v: string)
    ensures CheckTypeName(v).Err? <==> AllSpace(v)
    ensures ValidateTypeValue(v).Ok? ==> CheckTypeName(v) == Ok(ValidateTypeValue(v).value)
  {
    StripEmptyIffBlank(v);
  }

  /** `priority`: "normal" when absent (unchecked), else case-insensitively
      one of the three names. */
  function CheckPriority(v: Option<string>): (r: Checked<string>)
    ensures r.Ok? ==> IsPriorityName(r.value)
    ensures r.Ok? <==> v.None? || IsPriorityName(Lower(v.value))
    ensures r.Ok? ==> r.value == if v.None? then "normal" else Lower(v.value)
    ensures r.Err? ==> r.error == [PriorityInvalid]
  {
    if v.None? then Ok("normal")
    else match ValidatePriority(v.value)
      case Ok(p) => Ok(p)
      case Err(_) => Err([PriorityInvalid])
  }

  /** `ttl`: absent, or between 0 and 28 days in seconds. */
  function CheckTtl(v: Option<int>): (r: Checked<Option<int>>)
    ensures r.Ok? <==> v.None? || 0 <= v.value <= MaxTtlSeconds
    ensures r.Ok? ==> r.value == v
  {
    if v.Some? && (v.value < 0 || v.value > MaxTtlSeconds) then Err([TtlOutOfRange]) else Ok(v)
  }

  /** A body as received. `scheduledAt` is `None` when the field was left
      out and `Some(x)` when it was sent (`x` is `None` for an explicit null). */
  datatype SendInput = SendInput(
    deviceTokens: seq<TokenRequest>,
    notificationType: string,
    title: Option<string>,
    body: Option<string>,
    data: Data,
    priority: Option<string>,
    collapseKey: Option<string>,
    ttl: Option<int>,
    scheduledAt: Option<Option<Instant>>)

  datatype SendRequest = SendRequest(
    deviceTokens: seq<TokenRequest>,
    notificationType: string,
    title: Option<string>,
    body: Option<string>,
    data: Data,
    priority: string,
    collapseKey: Option<string>,
    ttl: Option<int>,
    scheduledAt: Option<Instant>)

  /** The value `scheduled_at` takes when the field is left out, as written:
      the default is computed once, when the module is loaded at `loadedAt`,
      and is the same instant for every later request. */
  function DefaultScheduleAsWritten(loadedAt: Instant): Option<Instant> {
    Some(loadedAt)
  }

  /** The evidently intended default: no schedule, i.e. deliver now. */
  function DefaultSchedule(): Option<Instant> {
    None
  }

  function ScheduleOf(v: Option<Option<Instant>>, default: Option<Instant>): Option<Instant> {
    if v.Some? then v.value else default
  }

  /** `SendNotificationRequest` with a given default for `scheduled_at`. */
  function ParseSendWith(raw: SendInput, default: Option<Instant>): (r: Checked<SendRequest>)
    ensures r.Ok? <==> CheckDeviceTokens(raw.deviceTokens).Ok? && CheckTypeName(raw.notificationType).Ok?
                       && CheckPriority(raw.priority).Ok? && CheckTtl(raw.ttl).Ok?
    ensures r.Ok? ==> && 0 < |r.value.deviceTokens| <= MaxRequestTokens
                      && Distinct(TokenStrings(r.value.deviceTokens))
                      && IsPriorityName(r.value.priority)
                      && (r.value.ttl.None? || 0 <= r.value.ttl.value <= MaxTtlSeconds)
                      && r.value.scheduledAt == ScheduleOf(raw.scheduledAt, default)
    ensures r.Ok? ==> && |r.value.deviceTokens| == |raw.deviceTokens|
                      && (forall i :: 0 <= i < |raw.deviceTokens| ==> Some(r.value.deviceTokens[i]) == CheckTokenRequest(raw.deviceTokens[i]))
                      && r.value.notificationType == Lower(raw.notificationType)
                      && r.value.priority == (if raw.priority.None? then "normal" else Lower(raw.priority.value))
                      && r.value.ttl == raw.ttl
                      && r.value.title == raw.title && r.value.body == raw.body
                      && r.value.data == raw.data && r.value.collapseKey == raw.collapseKey
    ensures r.Err? ==> r.error == Errors(CheckDeviceTokens(raw.deviceTokens)) + Errors(CheckTypeName(raw.notificationType))
                                  + Errors(CheckPriority(raw.priority)) + Errors(CheckTtl(raw.ttl))
  {
    var tokens := CheckDeviceTokens(raw.deviceTokens);
    var kind := CheckTypeName(raw.notificationType);
    var priority := CheckPriority(raw.priority);
    var ttl := CheckTtl(raw.ttl);
    if tokens.Ok? && kind.Ok? && priority.Ok? && ttl.Ok? then
      assert TokenStrings(tokens.value) == TokenStrings(raw.deviceTokens);
      Ok(SendRequest(tokens.value, kind.value, raw.title, raw.body, raw.data, priority.value,
                     raw.collapseKey, ttl.value, ScheduleOf(raw.scheduledAt, default)))
    else
      Err(Errors(tokens) + Errors(kind) + Errors(priority) + Errors(ttl))
  }

  /** `SendNotificationRequest` as written, loaded at `loadedAt`. */
  function ParseSendAsWritten(raw: SendInput, loadedAt: Instant): (r: Checked<SendRequest>)
    ensures r.Ok? <==> ParseSend(raw).Ok?
    ensures r.Ok? ==> r.value.scheduledAt == if raw.scheduledAt.Some? then raw.scheduledAt.value else Some(loadedAt)
    ensures r.Ok? ==> r.value.(scheduledAt := None) == ParseSend(raw).value.(scheduledAt := None)
    ensures r.Err? ==> r == ParseSend(raw)
  {
    ParseSendWith(raw, DefaultScheduleAsWritten(loadedAt))
  }

  /** `SendNotificationRequest` with the intended default. */
  function ParseSend(raw: SendInput): (r: Checked<SendRequest>)
    ensures r.Ok? ==> r.value.scheduledAt == if raw.scheduledAt.Some? then raw.scheduledAt.value else None
  {
    ParseSendWith(raw, DefaultSchedule())
  }

  /** Counterexample: once more than six minutes have passed since loading,
      a notification whose request left out `scheduled_at` fails validation
      as scheduled in the past, whatever else it says. */
  lemma StaleDefaultRejects(raw: SendInput, loadedAt: Instant, c: Content, now: Instant)
    requires raw.scheduledAt.None? && ParseSendAsWritten(raw, loadedAt).Ok?
    requires c.scheduledAt == ParseSendAsWritten(raw, loadedAt).value.scheduledAt
    requires now >= loadedAt + 6 * MicrosPerMinute
    ensures ScheduledInPast in Validate(c, now) && !IsValid(c, now)
  {
    ScheduleGraceWindow(now);
    ValidateTiming(c, now);
  }

  /** With the intended default the schedule check never rejects such a
      request. */
  lemma IntendedDefaultAccepted(raw: SendInput, c: Content, now: Instant)
    requires raw.scheduledAt.None? && ParseSend(raw).Ok?
    requires c.scheduledAt == ParseSend(raw).value.scheduledAt
    ensures ScheduledInPast !in Validate(c, now)
  {
    ValidateTiming(c, now);
  }

  /** `TopicNotificationRequest`'s `topic` check is the topic name rule
      itself, length cap included. */
  function CheckTopicName(v: string): (r: Checked<string>)
    ensures r.Ok? <==> ValidateTopicName(v).Ok?
    ensures r.Ok? ==> r.value == ValidateTopicName(v).value
    ensures r.Err? ==> r.error == [TopicInvalid(ValidateTopicName(v).error)]
  {
    match ValidateTopicName(v)
    case Ok(n) => Ok(n)
    case Err(e) => Err([TopicInvalid(e)])
  }

  datatype TopicInput = TopicInput(
    topic: string,
    notificationType: string,
    title: Option<string>,
    body: Option<string>,
    data: Data,
    priority: Option<string>,
    collapseKey: Option<string>,
    ttl: Option<int>,
    scheduledAt: Option<Option<Instant>>)

  datatype TopicRequest = TopicRequest(
    topic: string,
    notificationType: string,
    title: Option<string>,
    body: Option<string>,
    data: Data,
    priority: string,
    collapseKey: Option<string>,
    ttl: Option<int>,
    scheduledAt: Option<Instant>)

  /** `TopicNotificationRequest` (with the intended `scheduled_at` default). */
  function ParseTopic(raw: TopicInput): (r: Checked<TopicRequest>)
    ensures r.Ok? <==> ValidateTopicName(raw.topic).Ok? && CheckTypeName(raw.notificationType).Ok?
                       && CheckPriority(raw.priority).Ok? && CheckTtl(raw.ttl).Ok?
    ensures r.Ok? ==> r.value.topic == Strip(raw.topic) && IsPriorityName(r.value.priority)
    ensures r.Ok? ==> && r.value.notificationType == Lower(raw.notificationType)
                      && r.value.priority == (if raw.priority.None? then "normal" else Lower(raw.priority.value))
                      && r.value.ttl == raw.ttl
                      && r.value.title == raw.title && r.value.body == raw.body
                      && r.value.data == raw.data && r.value.collapseKey == raw.collapseKey
                      && r.value.scheduledAt == ScheduleOf(raw.scheduledAt, DefaultSchedule())
    ensures r.Err? ==> r.error == Errors(CheckTopicName(raw.topic)) + Errors(CheckTypeName(raw.notificationType))
                                  + Errors(CheckPriority(raw.priority)) + Errors(CheckTtl(raw.ttl))
  {
    var topic := CheckTopicName(raw.topic);
    var kind := CheckTypeName(raw.notificationType);
    var priority := CheckPriority(raw.priority);
    var ttl := CheckTtl(raw.ttl);
    if topic.Ok? && kind.Ok? && priority.Ok? && ttl.Ok? then
      Ok(TopicRequest(topic.value, kind.value, raw.title, raw.body, raw.data, priority.value,
                      raw.collapseKey, ttl.value, ScheduleOf(raw.scheduledAt, DefaultSchedule())))
    else
      Err(Errors(topic) + Errors(kind) + Errors(priority) + Errors(ttl))
  }

  /** The item errors of a batch, by position, from each item's own check. */
  function ItemErrors<T>(checked: seq<Checked<T>>): (r: seq<FieldError>)
    ensures r == [] <==> forall i :: 0 <= i < |checked| ==> checked[i].Ok?
    ensures forall e :: e in r ==> e.ItemInvalid? && e.index < |checked| && checked[e.index] == Err(e.errors)
  {
    if checked == [] then []
    else
      var init := ItemErrors(checked[..|checked| - 1]);
      var last := checked[|checked| - 1];
      assert forall i :: 0 <= i < |checked| - 1 ==> checked[..|checked| - 1][i] == checked[i];
      init + (if last.Err? then [ItemInvalid(|checked| - 1, last.error)] else [])
  }

  /** A list field of sub-models: every item must pass `check` first; only
      then are one to `limit` items required. */
  function CheckAll<T, U>(xs: seq<T>, check: T -> Checked<U>, limit: nat, none: FieldError, tooMany: FieldError)
    : (r: Checked<seq<U>>)
    ensures r.Ok? <==> 0 < |xs| <= limit && forall i :: 0 <= i < |xs| ==> check(xs[i]).Ok?
    ensures r.Ok? ==> |r.value| == |xs| && forall i :: 0 <= i < |xs| ==> Ok(r.value[i]) == check(xs[i])
    ensures r.Err? && (forall i :: 0 <= i < |xs| ==> check(xs[i]).Ok?) ==>
              r.error == [if xs == [] then none else tooMany]
  {
    var checked := seq(|xs|, i requires 0 <= i < |xs| => check(xs[i]));
    assert forall i :: 0 <= i < |xs| ==> checked[i] == check(xs[i]);
    var bad := ItemErrors(checked);
    if bad != [] then Err(bad)
    else if xs == [] then Err([none])
    else if |xs| > limit then Err([tooMany])
    else
      var values := seq(|xs|, i requires 0 <= i < |xs| => checked[i].value);
      assert forall i :: 0 <= i < |xs| ==> Ok(values[i]) == checked[i];
      Ok(values)
  }

  /** `BatchNotificationRequest`: every item must be a valid send request;
      only then are one to 100 items required. */
  function ParseBatch(items: seq<SendInput>): (r: Checked<seq<SendRequest>>)
    ensures r.Ok? <==> 0 < |items| <= MaxBatchSize && forall i :: 0 <= i < |items| ==> ParseSend(items[i]).Ok?
    ensures r.Ok? ==> |r.value| == |items| && forall i :: 0 <= i < |items| ==> Ok(r.value[i]) == ParseSend(items[i])
  {
    CheckAll(items, ParseSend, MaxBatchSize, NoNotifications, TooManyNotifications)
  }

  /** One bad item rejects the whole batch before any item is sent. */
  lemma BatchRejectsOnItem(items: seq<SendInput>, i: nat)
    requires i < |items| && ParseSend(items[i]).Err?
    ensures ParseBatch(items).Err?
  {
  }

  /** The subscription request's `topic` check: the topic name rule without
      the 250-character cap. */
  function CheckSubscriptionTopic(v: string): (r: Checked<string>)
    ensures r.Ok? ==> r.value == Strip(v) && r.value != [] && TopicChars(r.value)
  {
    var s := Strip(v);
    if |v| == 0 || |s| == 0 then Err([TopicInvalid(EmptyName)])
    else if !TopicChars(s) then Err([TopicInvalid(InvalidCharacters)])
    else Ok(s)
  }

  /** The subscription check agrees with the topic rule, except that it
      lets names longer than 250 characters through. */
  lemma {:induction false} SubscriptionTopicDropsLengthCap(v: string)
    ensures ValidateTopicName(v) != Err(NameTooLong) ==> CheckSubscriptionTopic(v) == CheckTopicName(v)
    ensures ValidateTopicName(v) == Err(NameTooLong) ==> CheckSubscriptionTopic(v) == Ok(Strip(v))
  {
  }

  datatype SubscriptionRequest = SubscriptionRequest(topic: string, deviceTokens: seq<string>)

  /** `TopicSubscriptionRequest`; `order` is the hash set's iteration order
      over the tokens. */
  function ParseSubscription(topic: string, tokens: seq<string>, order: seq<nat>): (r: Checked<SubscriptionRequest>)
    requires IsPermutation(order, |tokens|)
    ensures r.Ok? <==> CheckSubscriptionTopic(topic).Ok? && 0 < |tokens| <= MaxSubscriptionTokens && Distinct(tokens)
    ensures r.Ok? ==> && r.value.topic == Strip(topic)
                      && |r.value.deviceTokens| == |tokens| && Distinct(r.value.deviceTokens)
                      && forall x :: x in r.value.deviceTokens <==> x in tokens
  {
    var t := CheckSubscriptionTopic(topic);
    var ts := ValidateSubscriptionTokens(tokens, order);
    if t.Ok? && ts.Ok? then Ok(SubscriptionRequest(t.value, ts.value))
    else Err(Errors(t) + (if ts.Err? then [SubscriptionTokensInvalid(ts.error)] else []))
  }
}
