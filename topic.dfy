/** Messaging topics and subscriptions to them
    (src/notification_service/domain/value_objects/topic.py). */
module Topics {
  import opened Wrappers
  import opened Text

  const MaxTopicNameLength: nat := 250
  const MaxSubscriptionTokens: nat := 1000

  /** The character class `[a-zA-Z0-9\-_.~%]` a topic name is made of. */
  predicate IsTopicChar(c: char) {
    ('a' <= c <= 'z') || ('A' <= c <= 'Z') || ('0' <= c <= '9')
    || c == '-' || c == '_' || c == '.' || c == '~' || c == '%'
  }

  predicate TopicChars(s: string) {
    forall i :: 0 <= i < |s| ==> IsTopicChar(s[i])
  }

  datatype TopicError = EmptyName | InvalidCharacters | NameTooLong

  /** The `name` validator: blank names are empty; then the stripped name must
      consist of topic characters only; only then is its length checked; the
      stripped name is stored. */
  function ValidateTopicName(v: string): (r: Result<string, TopicError>)
    ensures r.Ok? ==> r.value == Strip(v) && 0 < |r.value| <= MaxTopicNameLength && TopicChars(r.value)
  {
    var s := Strip(v);
    if |v| == 0 || |s| == 0 then Err(EmptyName)
    else if !TopicChars(s) then Err(InvalidCharacters)
    else if |s| > MaxTopicNameLength then Err(NameTooLong)
    else Ok(s)
  }

  /** Which error a name draws, stated through what it is made of; the
      character test comes first, so an over-long name with a bad character
      is reported for its characters. */
  lemma {:induction false} TopicNameCases(v: string)
    ensures ValidateTopicName(v) == Err(EmptyName) <==> AllSpace(v)
    ensures ValidateTopicName(v) == Err(InvalidCharacters) <==> !AllSpace(v) && !TopicChars(Strip(v))
    ensures ValidateTopicName(v) == Err(NameTooLong) <==>
              !AllSpace(v) && TopicChars(Strip(v)) && |Strip(v)| > MaxTopicNameLength
    ensures ValidateTopicName(v).Ok? <==>
              !AllSpace(v) && TopicChars(Strip(v)) && |Strip(v)| <= MaxTopicNameLength
  {
    StripEmptyIffBlank(v);
  }

  /** A stored topic name validates to itself. */
  lemma {:induction false} TopicNameIdempotent(v: string)
    requires ValidateTopicName(v).Ok?
    ensures ValidateTopicName(ValidateTopicName(v).value) == ValidateTopicName(v)
  {
    StripIdempotent(v);
  }

  lemma TopicNameAccepted()
    ensures ValidateTopicName("news-2024.v1") == Ok("news-2024.v1")
  {
    var n := "news-2024.v1";
    assert !IsSpace(n[0]) && !IsSpace(n[|n| - 1]);
    assert Strip(n) == n;
  }

  lemma TopicNameBadCharacter()
    ensures ValidateTopicName("news feed!") == Err(InvalidCharacters)
  {
    var n := "news feed!";
    assert !IsSpace(n[0]) && !IsSpace(n[|n| - 1]);
    assert Strip(n) == n;
    assert !IsTopicChar(n[4]);
  }

  datatype Topic = Topic(name: string, description: Option<string>)

  /** `Topic(name=..., description=...)`. */
  function NewTopic(name: string, description: Option<string>): (r: Result<Topic, TopicError>)
    ensures r.Ok? <==> ValidateTopicName(name).Ok?
    ensures r.Ok? ==> r.value.name == Strip(name) && r.value.description == description
    ensures r.Err? ==> r.error == ValidateTopicName(name).error
  {
    match ValidateTopicName(name)
    case Ok(n) => Ok(Topic(n, description))
    case Err(e) => Err(e)
  }

  /** `__eq__`: topics are equal when their names are. */
  predicate SameTopic(a: Topic, b: Topic) {
    a.name == b.name
  }

  /** `__hash__`: the hashed key is the name. */
  function TopicHashKey(t: Topic): string {
    t.name
  }

  /** Equality ignores the description, and equal topics hash alike. */
  lemma TopicEqualityByName(a: Topic, b: Topic, d: Option<string>)
    ensures SameTopic(a, Topic(a.name, d))
    ensures SameTopic(a, b) <==> SameTopic(b, a)
    ensures SameTopic(a, b) ==> TopicHashKey(a) == TopicHashKey(b)
  {
  }

  /** `order` lists each index below `n` once: the iteration order of the
      hash set `set(v)` when `v` has no duplicates, which the model takes as
      given rather than computes. */
  predicate IsPermutation(order: seq<nat>, n: nat) {
    && |order| == n
    && (forall i :: 0 <= i < n ==> order[i] < n)
    && Distinct(order)
    && (forall k :: 0 <= k < n ==> k in order)
  }

  datatype SubscriptionError = NoDeviceTokens | TooManyDeviceTokens | DuplicateDeviceTokens

  /** The subscription's `device_tokens` validator: one to 1000 tokens, no
      token twice (duplicates are rejected, not dropped), and the accepted
      tokens come back in the hash set's order. */
  function ValidateSubscriptionTokens(v: seq<string>, order: seq<nat>): (r: Result<seq<string>, SubscriptionError>)
    requires IsPermutation(order, |v|)
    ensures r == Err(NoDeviceTokens) <==> v == []
    ensures r == Err(TooManyDeviceTokens) <==> |v| > MaxSubscriptionTokens
    ensures r == Err(DuplicateDeviceTokens) <==> 0 < |v| <= MaxSubscriptionTokens && !Distinct(v)
    ensures r.Ok? ==> |r.value| == |v| && Distinct(r.value) && (forall x :: x in r.value <==> x in v)
  {
    DistinctIffNoCollapse(v);
    if v == [] then Err(NoDeviceTokens)
    else if |v| > MaxSubscriptionTokens then Err(TooManyDeviceTokens)
    else if |Elements(v)| != |v| then Err(DuplicateDeviceTokens)
    else
      var u := seq(|v|, i requires 0 <= i < |v| => v[order[i]]);
      PermutedElements(v, order, u);
      Ok(u)
  }

  lemma PermutedElements(v: seq<string>, order: seq<nat>, u: seq<string>)
    requires IsPermutation(order, |v|) && Distinct(v)
    requires |u| == |v| && forall i :: 0 <= i < |v| ==> u[i] == v[order[i]]
    ensures Distinct(u) && forall x :: x in u <==> x in v
  {
    forall x | x in v
      ensures x in u
    {
      var k :| 0 <= k < |v| && v[k] == x;
      assert k in order;
      var j :| 0 <= j < |order| && order[j] == k;
      assert u[j] == x;
    }
  }

  datatype TopicSubscription = TopicSubscription(topic: Topic, deviceTokens: seq<string>)

  /** `TopicSubscription(topic=..., device_tokens=...)` for an already
      validated topic. */
  function NewTopicSubscription(topic: Topic, tokens: seq<string>, order: seq<nat>): (r: Result<TopicSubscription, SubscriptionError>)
    requires IsPermutation(order, |tokens|)
    ensures r.Ok? <==> 0 < |tokens| <= MaxSubscriptionTokens && Distinct(tokens)
    ensures r.Ok? ==> r.value.topic == topic && |r.value.deviceTokens| == |tokens|
                      && forall x :: x in r.value.deviceTokens <==> x in tokens
  {
    match ValidateSubscriptionTokens(tokens, order)
    case Ok(ts) => Ok(TopicSubscription(topic, ts))
    case Err(e) => Err(e)
  }
}
