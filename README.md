# Notification service core in Dafny

A model of the domain core of a push-notification service written in Python
(FastAPI, pydantic v1, Firebase Cloud Messaging as gateway, Valkey as store),
with proofs about it. The model covers three parts:

- **Self-validating value objects.** Device tokens and token lists, topics and
  topic subscriptions, and notification types with their template policy
  (`device_token.dfy`, `topic.dfy`, `notification_type.dfy`). Each pydantic
  validator is a function that returns the normalised value or the error it
  raises. Validators of different fields all run, and their errors are
  collected in field order.
- **The `Notification` aggregate** (`notification.dfy`).
  - Immutable content and `validate` (the error list in check order).
  - `get_target_count` and the FCM message rendering.
  - A `Notification` class whose `MarkSent` and `MarkFailed` update the
    status and counters in place.
  - The domain service (`notification_service.dfy`): `create_notification`,
    the type-requirement check, batch summary with its grouping loop, retry
    decision, priority choice and delivery estimate.
- **Request validators and route handlers.**
  - The request validators (`notification_request.dfy`).
  - The four sending routes (`dispatch.dfy`). Each handler builds the domain
    objects, calls the gateway once, marks the notification, stores the
    status record, publishes an event and answers.

The outside world enters as parameters:

- the current instant `now`, in microseconds since the epoch, UTC;
- identifiers;
- the gateway's reply (`GatewayReply`, `SubscribeReply`);
- whether the store's `set` or `publish` raises;
- the iteration order of a Python `set`, given as a permutation.

Handlers return their answer and the list of effects they had (gateway call,
stored record, published event), in order. `wrappers.dfy` holds `Option` and
`Result`. `text.dfy` holds the Python string operations the validators use:
`strip` over the `isspace` set, ASCII `lower` and `isalnum`, `replace`, and
distinctness as `len(set(...))`. `grouping.dfy` holds the insertion-ordered
dictionary of lists that two loops build.

The model follows what the code does, including where that is not what one might expect:

- A failed `publish` after a send is not best effort. It raises, and the route
  answers 500 after the record was stored (notifications.py:170-173).
- Duplicate subscription tokens are rejected, not silently dropped
  (topic.py:69-71, notification_request.py:180-182).
- After a multicast send that the gateway refused, the notification marks one
  failure, while the route reports every token as failed
  (notifications.py:139-143).
- The routes do not use `to_fcm_message`. They call the gateway client
  directly; the model records which tokens or topic each call goes to.
- The request-level duplicate check compares raw token strings
  (notification_request.py:46-47). The domain list compares stripped values
  (device_token.py:71-72).

## Model

Source paths are relative to the repository root.

| member | source | states |
|---|---|---|
| Text.StripIsTrimmedSlice | src/notification_service/domain/value_objects/device_token.py:17-24 | `strip` cuts off exactly the leading and trailing whitespace: the result is a slice of the input, the parts cut off are all whitespace, and the result neither starts nor ends with whitespace |
| Text.StripIdempotent | src/notification_service/domain/value_objects/device_token.py:24 | stripping a stripped string changes nothing |
| Text.StripEmptyIffBlank | src/notification_service/domain/value_objects/device_token.py:17 | `v.strip()` is empty exactly when `v` is all whitespace, which makes `not v or not v.strip()` the blank test |
| Text.LowerIdempotent | src/notification_service/domain/value_objects/notification_type.py:40 | lower-casing twice equals lower-casing once |
| Text.Remove | src/notification_service/domain/value_objects/notification_type.py:37 | `replace(c, "")` keeps exactly the characters other than `c` |
| Text.DistinctIffNoCollapse | src/notification_service/domain/value_objects/device_token.py:71-73 | `len(values) != len(set(values))` holds exactly when some value occurs twice |
| Grouping.AppendLookup | src/notification_service/domain/value_objects/device_token.py:84-87 | one turn of a grouping loop appends the value to its key's list and leaves every other list unchanged |
| Grouping.AppendKeys | src/notification_service/domain/value_objects/device_token.py:85-86 | a key gets a list the first time it is seen, and keys stay in first-seen order |
| Grouping.AppendDistinct | src/notification_service/domain/value_objects/device_token.py:85-86 | no key appears twice |
| Grouping.AppendFlatten | src/notification_service/domain/value_objects/device_token.py:87 | the lists together gain exactly the appended value |
| Grouping.SizesTotal | src/notification_service/domain/services/notification_service.py:115 | the sizes `{k: len(v)}` add up to the number of grouped values |
| DeviceTokens.ParsePlatform | src/notification_service/domain/value_objects/device_token.py:26-32 | a platform is accepted exactly when its lower-cased form is android, ios or web, and the lower-cased name is stored |
| DeviceTokens.PlatformRoundTrip | src/notification_service/domain/value_objects/device_token.py:29-32 | every platform's stored name parses back to it, and parsing ignores case |
| DeviceTokens.ValidateTokenValue | src/notification_service/domain/value_objects/device_token.py:14-24 | an accepted token value is the stripped input and has at least 32 characters |
| DeviceTokens.TokenValueCases | src/notification_service/domain/value_objects/device_token.py:17-24 | "empty" exactly for blank values; "too short" exactly for non-blank values whose stripped length is under 32; an accepted value has no whitespace at either end |
| DeviceTokens.TokenValueIdempotent | src/notification_service/domain/value_objects/device_token.py:24 | validating a stored token value returns it unchanged |
| DeviceTokens.NewDeviceToken | src/notification_service/domain/value_objects/device_token.py:8-32 | a token is built exactly when both validators accept; otherwise the value's error comes before the platform's, and the platform error appears exactly when the platform is invalid |
| DeviceTokens.TokenEqualityByValue | src/notification_service/domain/value_objects/device_token.py:38-46 | equality ignores the platform and is an equivalence; equal tokens hash alike |
| DeviceTokens.ValidateTokensAsWritten | src/notification_service/domain/value_objects/device_token.py:58-75 | as written, the list check always uses the bound 500, whatever `max_tokens` is |
| DeviceTokens.ValidateTokens | src/notification_service/domain/value_objects/device_token.py:58-75 | the list check with the intended bound: "none" exactly for the empty list, "too many" exactly above the bound, "duplicate" exactly when a value repeats; an accepted list comes back unchanged |
| DeviceTokens.MaxTokensIgnored | src/notification_service/domain/value_objects/device_token.py:55-68 | two tokens with `max_tokens` 1 are accepted as written and rejected with the intended bound |
| DeviceTokens.ValidatorsAgreeAtDefault | src/notification_service/domain/value_objects/device_token.py:56-65 | at the bound 500 the written and the intended check agree on every list |
| DeviceTokens.NewDeviceTokenList | src/notification_service/domain/value_objects/device_token.py:52-75 | a list is built exactly when it has 1 to `max_tokens` tokens with distinct values |
| DeviceTokens.Platforms | src/notification_service/domain/value_objects/device_token.py:77-79 | `get_platforms` holds exactly the platforms that occur in the list |
| DeviceTokens.GroupedValuesLookup | src/notification_service/domain/value_objects/device_token.py:81-88 | each platform's group lists the values of that platform's tokens, in input order |
| DeviceTokens.GroupedValuesKeys | src/notification_service/domain/value_objects/device_token.py:81-88 | there is one group for each platform that occurs, and no other group |
| DeviceTokens.GroupedValuesFlatten | src/notification_service/domain/value_objects/device_token.py:81-88 | the groups together are a permutation of the token values |
| DeviceTokens.GroupByPlatform | src/notification_service/domain/value_objects/device_token.py:81-88 | the grouping loop's result: each group holds its platform's values in order, one group per occurring platform, together a permutation of the values |
| Topics.ValidateTopicName | src/notification_service/domain/value_objects/topic.py:14-33 | an accepted name is the stripped input: non-empty, at most 250 characters, only `[A-Za-z0-9-_.~%]` |
| Topics.TopicNameCases | src/notification_service/domain/value_objects/topic.py:17-31 | "empty" exactly for blank names; a bad character exactly for non-blank names whose stripped form has one; "too long" exactly when the characters are fine but there are more than 250 |
| Topics.TopicNameIdempotent | src/notification_service/domain/value_objects/topic.py:33 | validating a stored name returns it unchanged |
| Topics.TopicNameAccepted | src/notification_service/domain/value_objects/topic.py:22-33 | `news-2024.v1` is accepted as it is |
| Topics.TopicNameBadCharacter | src/notification_service/domain/value_objects/topic.py:22-27 | `news feed!` is rejected for its characters |
| Topics.NewTopic | src/notification_service/domain/value_objects/topic.py:8-33 | a topic is built exactly when its name validates; it holds the stripped name and the description as given |
| Topics.TopicEqualityByName | src/notification_service/domain/value_objects/topic.py:39-47 | equality ignores the description and is symmetric; equal topics hash alike |
| Topics.ValidateSubscriptionTokens | src/notification_service/domain/value_objects/topic.py:59-73 | "none" exactly for the empty list, "too many" above 1000, "duplicate" exactly when a token repeats; an accepted list has the same tokens, each once, in the set's order |
| Topics.PermutedElements | src/notification_service/domain/value_objects/topic.py:69 | reading distinct tokens through a permutation keeps them distinct and keeps the same tokens |
| Topics.NewTopicSubscription | src/notification_service/domain/value_objects/topic.py:53-73 | a subscription is built exactly for 1 to 1000 distinct tokens and holds the same tokens |
| NotificationTypes.ParseKind | src/notification_service/domain/value_objects/notification_type.py:8-15 | looking a value up among the five predefined names matches exactly |
| NotificationTypes.KindNameRoundTrip | src/notification_service/domain/value_objects/notification_type.py:8-15 | each predefined type's name looks up to that type |
| NotificationTypes.ValidateTypeValue | src/notification_service/domain/value_objects/notification_type.py:26-40 | an accepted value is stored lower-cased, not stripped |
| NotificationTypes.AlnumAfterRemovalIff | src/notification_service/domain/value_objects/notification_type.py:37 | dropping `_` and `-` leaves a non-empty alphanumeric string exactly when the value is letters, digits, `_` and `-` with at least one letter or digit |
| NotificationTypes.TypeValueCases | src/notification_service/domain/value_objects/notification_type.py:29-40 | "empty" exactly for blank values; "not alphanumeric" exactly for non-blank values that are neither a predefined name once lower-cased nor of the custom shape; an accepted value has no upper-case letter and is a predefined name or of the custom shape |
| NotificationTypes.TypeValueIdempotent | src/notification_service/domain/value_objects/notification_type.py:40 | validating a stored type value returns it unchanged |
| NotificationTypes.ValidatePriority | src/notification_service/domain/value_objects/notification_type.py:42-48 | a priority is accepted exactly when lower-cased it is high, normal or low, and is stored lower-cased |
| NotificationTypes.PriorityCaseInsensitive | src/notification_service/domain/value_objects/notification_type.py:46-48 | the priority check ignores case, and a stored priority validates to itself |
| NotificationTypes.NewNotificationType | src/notification_service/domain/value_objects/notification_type.py:18-48 | a type is built exactly when the value validates and the priority, if given, validates; a missing priority becomes a valid one; the priority error appears exactly when the given priority is invalid |
| NotificationTypes.IsPredefined | src/notification_service/domain/value_objects/notification_type.py:50-56 | true exactly when the stored value is one of the five predefined names |
| NotificationTypes.GetTemplateConfig | src/notification_service/domain/value_objects/notification_type.py:58-87 | every type supports data; title and body are required together, and not required exactly for silent and custom; the default priority is high exactly for alert, otherwise normal |
| Notifications.ForDevices | src/notification_service/domain/entities/notification.py:42-62 | the device variant targets the tokens and no topic; missing data becomes `{}`; every other field is passed through unchanged; its target count is the number of tokens |
| Notifications.ForTopic | src/notification_service/domain/entities/notification.py:64-84 | the topic variant targets the topic and no tokens; missing data becomes `{}`; every other field is passed through unchanged; its target count is 1 |
| Notifications.ScheduleGraceWindow | src/notification_service/domain/entities/notification.py:110-115 | the schedule cut-off is minute-aligned, and lies at least 5 and less than 6 minutes before `now` |
| Notifications.TargetErrors | src/notification_service/domain/entities/notification.py:90-95 | "no target" exactly when neither target is set, "both targets" exactly when both are |
| Notifications.TypeRequirementErrors | src/notification_service/domain/entities/notification.py:97-107 | "requires a title" and "requires a body" each appear exactly when the policy asks for the field and it is missing or empty; the data error never appears |
| Notifications.TimingErrors | src/notification_service/domain/entities/notification.py:109-118 | the schedule error appears exactly when `scheduled_at` is before the cut-off, the expiry error exactly when `expires_at` is before `now` |
| Notifications.Validate | src/notification_service/domain/entities/notification.py:86-120 | the errors come in check order, each at most once, and never contain the unreachable data error |
| Notifications.ValidIff | src/notification_service/domain/entities/notification.py:86-124 | `is_valid()` holds exactly when the notification has one kind of target, the title and body its type requires, a schedule time not before the cut-off and an expiry not before `now` |
| Notifications.ValidateTargets | src/notification_service/domain/entities/notification.py:90-95 | in the full list, each targeting error appears exactly under its condition |
| Notifications.ValidateTypeRequirements | src/notification_service/domain/entities/notification.py:97-104 | in the full list, each title or body error appears exactly under its condition |
| Notifications.ValidateTiming | src/notification_service/domain/entities/notification.py:109-118 | in the full list, each timing error appears exactly under its condition |
| Notifications.TargetCount | src/notification_service/domain/entities/notification.py:126-132 | the token count whenever tokens are set, even if a topic is too; without tokens, zero exactly when there is no topic either |
| Notifications.ValidHasTarget | src/notification_service/domain/entities/notification.py:122-132 | a valid notification has exactly one kind of target, and at least one target when its token list (if any) is non-empty, as every built list is |
| Notifications.ApplyMark | src/notification_service/domain/entities/notification.py:134-144 | a send adds to the sent count only; a failure adds to the failed count only |
| Notifications.ReplayCounts | src/notification_service/domain/entities/notification.py:134-144 | after any marks, the counters are the start values plus the marks' counts |
| Notifications.ReplayStatus | src/notification_service/domain/entities/notification.py:134-144 | failed is final: the status is failed exactly when it started failed or any failure was marked, and pending exactly when nothing was marked; the message is the last failure's |
| Notifications.LastFailure | src/notification_service/domain/entities/notification.py:140-144 | the position of the failure mark whose message stands |
| Notifications.Notification.constructor | src/notification_service/domain/entities/notification.py:13-40 | a new notification is pending with zero counts and no message |
| Notifications.Notification.MarkSent | src/notification_service/domain/entities/notification.py:134-138 | `mark_sent` updates the counters in place as one send mark does |
| Notifications.Notification.MarkFailed | src/notification_service/domain/entities/notification.py:140-144 | `mark_failed` updates the counters in place as one failure mark does |
| Notifications.MarkScenarios | tests/unit/test_notification_entity.py:176-208 | the repository's mark sequences: `mark_sent()` then `mark_sent(5)` ends sent with 6; `mark_failed("Test error")` then `mark_failed("Another error", 3)` ends failed with 4 and the message "Another error" |
| Notifications.ToFcmMessageAsWritten | src/notification_service/domain/entities/notification.py:146-184 | as written, rendering fails with a missing `headers` key exactly when a priority is set |
| Notifications.ToFcmMessage | src/notification_service/domain/entities/notification.py:146-184 | the intended rendering: data as given; a title (body) entry exactly when the title (body) is non-empty, holding it; the first token as target when tokens are set, else the topic name; with a priority, android priority and apns headers `10` for high and `5` otherwise; `collapse_key` exactly when one is set; `ttl` as `"<ttl>s"` exactly when ttl is set and non-zero; no other android or notification keys, and an empty webpush section |
| Notifications.FcmMessageAgreesWithoutPriority | src/notification_service/domain/entities/notification.py:174-184 | without a priority, the written and the intended rendering agree |
| Notifications.FcmMessageFailsForValidPriority | src/notification_service/domain/entities/notification.py:174-176 | every valid priority makes the written rendering fail |
| Notifications.FcmMessageTestCase | tests/unit/test_notification_entity.py:210-232 | the repository's rendering example as the test builds it (priority `high` on the type, so the notification keeps `normal`): the written code fails on it; the intended rendering gives the expected title, body, data, token, collapse key and ttl, with priority `normal` and apns priority `5` where the test expects `high` and `10` |
| NotificationService.CreateNotification | src/notification_service/domain/services/notification_service.py:19-66 | "missing target" exactly with no target, "conflicting targets" exactly with both; otherwise the notification the matching factory builds (so missing data becomes `{}` and every other argument passes through), returned when it is valid at `now` and otherwise rejected with exactly its non-empty `validate()` errors |
| NotificationService.CreateSucceedsIffValid | src/notification_service/domain/services/notification_service.py:40-66 | with exactly one target, creation succeeds exactly when the built notification is valid, and the targeting errors cannot occur |
| NotificationService.ValidateNotificationTypeRequirements | src/notification_service/domain/services/notification_service.py:68-88 | title and body errors each exactly under the policy's condition, and nothing else |
| NotificationService.TypeCheckAgreesWithEntity | src/notification_service/domain/services/notification_service.py:76-88 | the service's type check produces exactly the type-requirement part of the entity's `validate` |
| NotificationService.TypeGroupsFacts | src/notification_service/domain/services/notification_service.py:100-106 | each type's group holds exactly that type's notifications, in order; one group per occurring type; together the whole batch |
| NotificationService.ProcessNotificationBatch | src/notification_service/domain/services/notification_service.py:90-119 | totals: valid and invalid add up to the batch size; the type-group sizes add up to it, and each equals its type's count; one group per type; device, topic and target totals |
| NotificationService.ValidBatchCounts | src/notification_service/domain/services/notification_service.py:95-119 | in a batch of valid notifications all count as valid, device and topic notifications add up to the batch, and there are at least as many targets as notifications |
| NotificationService.OneTargetKindCounts | src/notification_service/domain/services/notification_service.py:95-119 | when each notification has exactly one kind of target, device and topic notifications add up to the batch |
| NotificationService.TargetedSum | src/notification_service/domain/services/notification_service.py:95-119 | when each notification has a target, there are at least as many targets as notifications |
| NotificationService.AllValidCount | src/notification_service/domain/services/notification_service.py:95-119 | when every notification is valid, the valid count is the batch size |
| NotificationService.ValidHasTargetKind | src/notification_service/domain/services/notification_service.py:108-109 | a valid notification is a device notification or a topic notification, not both |
| NotificationService.RetryDecision | src/notification_service/domain/services/notification_service.py:121-138 | a retry is advised exactly for a failed notification with fewer failures than `max_retries` whose expiry, if any, has not passed |
| NotificationService.ShouldRetry | src/notification_service/domain/services/notification_service.py:121-138 | read off the notification object: retry exactly when its status is failed, its failed count is below `max_retries` (3 by default) and it has not expired |
| NotificationService.RetryBudget | src/notification_service/domain/services/notification_service.py:127-132 | with single-failure marks, a never-failed notification is not retried, and a failed one is retried exactly while fewer failures than `max_retries` were marked |
| NotificationService.SingleFailures | src/notification_service/domain/entities/notification.py:140-142 | with single-failure marks, the failed count is the number of failures |
| NotificationService.GetNotificationPriority | src/notification_service/domain/services/notification_service.py:140-150 | a non-empty override wins; otherwise the type's default: `high` for alert, `normal` for every other type |
| NotificationService.EstimateDeliveryTime | src/notification_service/domain/services/notification_service.py:152-165 | the schedule time if set; otherwise the current time truncated to the second |
| Requests.CheckTokenRequest | src/notification_service/application/dto/notification_request.py:14-20 | a token request is accepted exactly for a valid platform, stored lower-cased; the token string is not checked |
| Requests.BadPlatforms | src/notification_service/application/dto/notification_request.py:14-20 | one error for each token request with an invalid platform, and only for those |
| Requests.CheckDeviceTokens | src/notification_service/application/dto/notification_request.py:36-50 | accepted exactly when every platform is valid and there are 1 to 500 token strings, none repeated; accepted entries are the normalised requests |
| Requests.CheckTypeName | src/notification_service/application/dto/notification_request.py:52-57 | a non-blank type name is accepted lower-cased; a blank one is rejected |
| Requests.TypeNameCheckWeaker | src/notification_service/application/dto/notification_request.py:52-57 | the request rejects exactly the blank names, and accepts every value the domain type accepts, with the same result |
| Requests.CheckPriority | src/notification_service/application/dto/notification_request.py:59-65 | accepted exactly when absent or lower-cased high, normal or low |
| Requests.CheckTtl | src/notification_service/application/dto/notification_request.py:67-72 | accepted exactly when absent or between 0 and 2419200 seconds |
| Requests.ParseSendWith | src/notification_service/application/dto/notification_request.py:23-72 | a send request is accepted exactly when every field check passes; an accepted one holds each token as its item check gives it, the lower-cased type, the priority lower-cased or `normal` when absent, the ttl, title, body, data and collapse key as given, and the schedule or the default; otherwise its errors are the fields' errors in field order |
| Requests.ParseSendAsWritten | src/notification_service/application/dto/notification_request.py:34 | as written: accepted exactly when the intended parse is; an omitted `scheduled_at` takes the instant the module was loaded, a given one is kept; every other field is as the intended parse gives it, and the errors are the same |
| Requests.ParseSend | src/notification_service/application/dto/notification_request.py:34 | with the intended default: a given `scheduled_at` is kept and an omitted one means no schedule |
| Requests.StaleDefaultRejects | src/notification_service/application/dto/notification_request.py:34 | six minutes after loading, every request without `scheduled_at` builds a notification that `validate` rejects as scheduled in the past |
| Requests.IntendedDefaultAccepted | src/notification_service/application/dto/notification_request.py:34 | with the intended default, such a request never draws the schedule error |
| Requests.CheckTopicName | src/notification_service/application/dto/notification_request.py:88-106 | the topic request's name check is exactly the domain topic check |
| Requests.ParseTopic | src/notification_service/application/dto/notification_request.py:75-128 | a topic request is accepted exactly when every field check passes; an accepted one holds the stripped topic, the lower-cased type, the priority lower-cased or `normal` when absent, the ttl, title, body, data and collapse key as given, and the given schedule or none; otherwise errors in field order |
| Requests.ItemErrors | src/notification_service/application/dto/notification_request.py:131-145 | no error exactly when every item passed its check; each error names an invalid item by its position and carries that item's own errors |
| Requests.CheckAll | src/notification_service/application/dto/notification_request.py:131-145 | a list of sub-models is accepted exactly when every item passes its check and there are 1 to `limit` items; the accepted list holds each item's own result, in order; when every item passes, the only possible error is the empty or the too-long list |
| Requests.ParseBatch | src/notification_service/application/dto/notification_request.py:131-145 | a batch is accepted exactly with 1 to 100 items that are all valid; the accepted batch holds each item's own request, in order |
| Requests.BatchRejectsOnItem | src/notification_service/application/dto/notification_request.py:131-145 | one invalid item rejects the whole batch |
| Requests.CheckSubscriptionTopic | src/notification_service/application/dto/notification_request.py:154-168 | an accepted subscription topic is stripped, non-empty and made of topic characters |
| Requests.SubscriptionTopicDropsLengthCap | src/notification_service/application/dto/notification_request.py:154-168 | the subscription check is the topic check without the 250-character cap, which it accepts |
| Requests.ParseSubscription | src/notification_service/application/dto/notification_request.py:148-184 | accepted exactly for a valid topic and 1 to 1000 distinct tokens; it keeps the same tokens, each once, in the set's order |
| Dispatch.BuildTokens | src/notification_service/presentation/api/v1/notifications.py:54-60 | the request's tokens are built in order, one per requested token; the first that does not validate aborts with its own errors and position, and all before it validated |
| Dispatch.PreparedSendFacts | src/notification_service/presentation/api/v1/notifications.py:54-82 | a request that gets through is a valid notification with one distinct token per requested token, at most 500 |
| Dispatch.CallFor | src/notification_service/presentation/api/v1/notifications.py:85-129 | the single-device call is made exactly for one token, to that token; otherwise one multicast to all of them |
| Dispatch.Delivery | src/notification_service/presentation/api/v1/notifications.py:99-143 | "failed" exactly when the gateway failed, "partial" exactly when a multicast succeeded with failures; a single send counts (1, 0) or (0, 1); a multicast the gateway answered counts the gateway's own success and failure counts; a refused multicast counts (0, n) |
| Dispatch.DeliveryAccounts | src/notification_service/presentation/api/v1/notifications.py:99-143 | every target is counted once: sent plus failed is the number of tokens; "success" exactly when the gateway succeeded with no failure |
| Dispatch.EntityMatchesReport | src/notification_service/presentation/api/v1/notifications.py:99-143 | the notification ends sent exactly when the send is reported "success" and failed otherwise, so a partial send leaves it failed; its sent count matches; its failed count matches except after a refused multicast, which marks one failure |
| Dispatch.PreparedRecipients | src/notification_service/presentation/api/v1/notifications.py:54-82 | a request that gets through is addressed to device tokens, one per requested token |
| Dispatch.SendAfterCallFacts | src/notification_service/presentation/api/v1/notifications.py:85-195 | after the gateway answered: one call to the tokens (singly for one token), then the record stored, then that same record published; an answer only when both succeed, reporting success unless the send failed, with the totals of the delivery and one result covering every target |
| Dispatch.SendHandlerFacts | src/notification_service/presentation/api/v1/notifications.py:37-195 | a request that does not build is answered with its error and nothing is sent; one that builds goes on as after a gateway answer, to one target per requested token |
| Dispatch.MarkDelivery | src/notification_service/presentation/api/v1/notifications.py:99-140 | the marks applied to the notification are those the reply calls for |
| Dispatch.SendNotification | src/notification_service/presentation/api/v1/notifications.py:37-195 | the route's answer and effects, and the new notification with the marks the reply calls for |
| Dispatch.PreparedTopicFacts | src/notification_service/presentation/api/v1/notifications.py:211-229 | a topic request that gets through is a valid notification to the stripped topic name |
| Dispatch.TopicHandlerFacts | src/notification_service/presentation/api/v1/notifications.py:198-286 | one call to the topic; the stored record is published unchanged; success exactly when the gateway succeeded, with its message id |
| Dispatch.SendTopicNotification | src/notification_service/presentation/api/v1/notifications.py:198-286 | the route's answer and effects, and a notification sent once or failed once with the gateway's error |
| Dispatch.AttemptTargets | src/notification_service/presentation/api/v1/notifications.py:305-336 | a batch item that builds is sent to one target per requested token |
| Dispatch.ReportFrom | src/notification_service/presentation/api/v1/notifications.py:395-431 | corrected: an item's entry is a failed entry exactly when it was rejected or storing failed; otherwise it carries the item's id, target count and gateway error, is not delivered exactly when the gateway failed, and counts (1, 0) or (0, 1) for a single send, the gateway's counts for an answered multicast and (0, targets) for a refused one |
| Dispatch.CountSucceeded | src/notification_service/presentation/api/v1/notifications.py:353-374 | the count of succeeded entries never exceeds the number of entries (its meaning is given by AllSucceededIff and CountSucceededSnoc) |
| Dispatch.AllSucceededIff | src/notification_service/presentation/api/v1/notifications.py:446-447 | nothing failed exactly when every entry succeeded |
| Dispatch.ReportAt | src/notification_service/presentation/api/v1/notifications.py:305-431 | each entry of the batch answer depends on its own item alone |
| Dispatch.ProcessItems | src/notification_service/presentation/api/v1/notifications.py:301-431 | corrected: the batch loop with each item counted once: one entry per item in order; successes counted; successes plus failures equal the items; the effects of every item in order |
| Dispatch.SendBatch | src/notification_service/presentation/api/v1/notifications.py:289-464 | the batch answer (counted per item): one entry per item, each item's own; success exactly when every item succeeded; then the batch event, or 500 when publishing fails |
| Dispatch.RecordedFailedAsWritten | src/notification_service/presentation/api/v1/notifications.py:349-379 | as written, a sent item records its own failed count exactly when the gateway succeeded; a failed send records 2 for one token and targets + 1 for several |
| Dispatch.FailedAsWritten | src/notification_service/presentation/api/v1/notifications.py:349-419 | as written, the batch's failure counter; when every item raised it equals the number of items |
| Dispatch.SuccessfulAsWritten | src/notification_service/presentation/api/v1/notifications.py:353-374 | as written, the success counter counts the items the gateway accepted, so it equals the number of items exactly when the gateway accepted every item, even ones whose storing then raised |
| Dispatch.TallyAsWritten | src/notification_service/presentation/api/v1/notifications.py:301-419 | the loop's two counters updated step by step as written (overwrite, then add one) end at FailedAsWritten and SuccessfulAsWritten |
| Dispatch.FailedTallyIsLastResidue | src/notification_service/presentation/api/v1/notifications.py:349-419 | as written, once an item reaches the gateway the batch's failed total is only what that item left |
| Dispatch.BatchFailureForgotten | src/notification_service/presentation/api/v1/notifications.py:349-451 | a rejected item followed by a delivered single-token item gives, as written, no failure and one success; counted per item, one failed |
| Dispatch.ShortTokenRejected | src/notification_service/presentation/api/v1/notifications.py:308-314 | a batch item whose only token is `short` is rejected when built |
| Dispatch.SingleFailureCountedTwice | src/notification_service/presentation/api/v1/notifications.py:354-358 | as written, a failed single-token send records two failures; counted per item, one |
| Dispatch.FailedTokens | src/notification_service/presentation/api/v1/notifications.py:487-493 | the failed tokens are requested tokens, at most one per error, and each is the token some in-range indexed error points at |
| Dispatch.FailedTokensComplete | src/notification_service/presentation/api/v1/notifications.py:490-493 | every indexed error inside the token list contributes its token |
| Dispatch.SubscribeToTopic | src/notification_service/presentation/api/v1/notifications.py:467-537 | one gateway call; on success the gateway's counts and the tokens its errors point at, published then returned (500 if publishing fails); on failure nothing subscribed, every token failed, nothing published |

## Left out

- The title, body, data, priority, collapse key and ttl that the routes hand to the gateway client (notifications.py:89-97, 121-129; the topic route at 232-238 passes no collapse key or ttl) are not recorded in `Called`; only the recipients are, because the gateway is a parameter whose reply the model takes as given.
- I/O is left out: the HTTP layer, logging, `processing_time_ms`, the response `message` strings and the `created_at` timestamp in stored records. The status-lookup route (notifications.py:540-563) only reads the store and is not modelled.
- `calculate_notification_cost`: float multipliers and `len(str(data))`, which depends on Python's repr.
- The Firebase client and the Valkey client are not modelled; their replies and failures are inputs. Gateway exceptions reach the routes only as unsuccessful replies.
- Concurrency and `async`: every route runs sequentially. The clock, `uuid4` and `time.time` are parameters, and one `now` stands for all clock reads in a request.
- Time zones: all instants are UTC microseconds, and naive datetimes are not modelled.
- Text.Lower: ASCII case mapping only; Python's `lower` also maps non-ASCII letters.
- Text.IsAlnum: ASCII letters and digits only; Python's `isalnum` accepts every Unicode letter and digit.
- Custom data values are modelled as strings; the source allows any JSON value.
- Topics.ValidateSubscriptionTokens: the iteration order of `set(v)` is an input permutation; the hash-set order is not computed.
- DeviceTokens.Platforms: returns a set; the order of `list(set(...))` is not modelled.
- Dispatch.SendNotification and Dispatch.SendTopicNotification: the 500 answer carries a `Failure` value instead of the exception text.
- Dispatch.SubscribeToTopic: error indices are natural numbers. The gateway never reports a negative index, which Python would count from the end.
- Dispatch.SendBatch: models the batch counted per item (the corrected behaviour); the code as written is modelled by Dispatch.TallyAsWritten, Dispatch.FailedAsWritten and Dispatch.SuccessfulAsWritten.
- Dispatch.ProcessItems: is the corrected loop. It counts each item once, so successes plus failures equal the items, which the loop at notifications.py:351-379 does not do; the as-written counters are Dispatch.TallyAsWritten.
- Dispatch.ReportFrom: is the corrected entry. A failed send records its own failed count (1 for one token), where notifications.py:356-358 and 377-379 record one more; Dispatch.RecordedFailedAsWritten gives the as-written value.
- Dispatch.ItemEffects: stores the corrected failed count in the record; as written the stored `failed_count` (notifications.py:387) is Dispatch.RecordedFailedAsWritten, one more for a failed send.
- Requests.ParseSend: the import-time default for `scheduled_at` is the corrected one; Requests.ParseSendAsWritten models the code as written.
- Requests.ParseTopic: uses the corrected `scheduled_at` default. The topic request has the same import-time default (notification_request.py:86) and the same consequence, which is not modelled separately.
- Notifications.FcmMessageTestCase: builds the test's token directly. The test's `DeviceToken(token=...)` names no `value` and its token is under 32 characters, so the token validator would reject it.
- `settings.max_tokens_per_request` is the constant 500; reading it from the environment is not modelled.

## Findings

| source | as written | input that shows it | evidently intended | confidence | as-written member | corrected member |
|---|---|---|---|---|---|---|
| src/notification_service/domain/value_objects/device_token.py:65 | `values.get("max_tokens", 500)` runs before `max_tokens` is validated (it is declared after `tokens`), so the bound is always 500 | `DeviceTokenList(tokens=[a, b], max_tokens=1)` is accepted | the list is limited to `max_tokens` | high (not executed) | DeviceTokens.ValidateTokensAsWritten, DeviceTokens.MaxTokensIgnored | DeviceTokens.ValidateTokens |
| src/notification_service/domain/entities/notification.py:176 | `apns` is built as `{}` and then `["headers"]["apns-priority"]` is assigned, which raises a missing-key error | any notification with a non-empty priority, which every validated one has (the default is `normal`), e.g. the repository's own rendering test | the apns section gets a `headers` map with `apns-priority` 10 or 5 | high (not executed) | Notifications.ToFcmMessageAsWritten, Notifications.FcmMessageFailsForValidPriority | Notifications.ToFcmMessage |
| src/notification_service/application/dto/notification_request.py:34 | the default for `scheduled_at` is `datetime.now()` evaluated once, when the module is loaded (also line 86) | a send request without `scheduled_at` arriving six minutes after start-up is rejected as scheduled in the past | no schedule means deliver now | high (not executed) | Requests.ParseSendAsWritten, Requests.StaleDefaultRejects | Requests.ParseSend, Requests.IntendedDefaultAccepted |
| src/notification_service/presentation/api/v1/notifications.py:351-379 | the batch loop writes each item's failed count into the batch's running `failed_count` (lines 351, 356, 372, 377) and then adds one for a failed send (lines 358, 379); the batch answer and event use what the last item left (lines 440, 447) | a batch whose first item is rejected and whose second is delivered to its one token answers success with 0 failed; a failed single-token item records 2 failures | each item counted once in the batch totals, and an item's own failed count is its own | high (not executed) | Dispatch.TallyAsWritten, Dispatch.RecordedFailedAsWritten, Dispatch.BatchFailureForgotten, Dispatch.SingleFailureCountedTwice | Dispatch.SendBatch, Dispatch.ReportFrom, Dispatch.AllSucceededIff |
