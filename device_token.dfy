/** Device tokens and validated lists of them
    (src/notification_service/domain/value_objects/device_token.py). */
module DeviceTokens {
  import opened Wrappers
  import opened Text
  import Grouping

  /** A token whose stripped value is shorter than this is rejected. */
  const MinTokenLength: nat := 32
  /** The list bound the validator falls back to (and, as written, always uses). */
  const DefaultMaxTokens: int := 500

  datatype Platform = Android | Ios | Web

  /** The lower-case name a validated platform is stored under. */
  function PlatformName(p: Platform): string {
    match p
    case Android => "android"
    case Ios => "ios"
    case Web => "web"
  }

  /** The platform validator: `v.lower()` must be one of the three names,
      and the lower-cased name is what is stored. */
  function ParsePlatform(v: string): (r: Option<Platform>)
    ensures r.Some? <==> Lower(v) in {"android", "ios", "web"}
    ensures r.Some? ==> PlatformName(r.value) == Lower(v)
  {
    var l := Lower(v);
    if l == "android" then Some(Android)
    else if l == "ios" then Some(Ios)
    else if l == "web" then Some(Web)
    else None
  }

  /** Parsing the stored name gives the platform back; the check ignores case. */
  lemma {:induction false} PlatformRoundTrip(p: Platform, v: string)
    ensures ParsePlatform(PlatformName(p)) == Some(p)
    ensures ParsePlatform(Lower(v)) == ParsePlatform(v)
  {
    LowerOfLowercase(PlatformName(p));
    LowerIdempotent(v);
  }

  datatype DeviceToken = DeviceToken(value: string, platform: Platform)

  datatype TokenError = EmptyToken | TokenTooShort | InvalidPlatform

  /** The `value` validator: a blank value is reported as empty, a value
      shorter than 32 characters once stripped as too short, and an accepted
      value is stored stripped. */
  function ValidateTokenValue(v: string): (r: Result<string, TokenError>)
    ensures r.Ok? ==> r.value == Strip(v) && |r.value| >= MinTokenLength
    ensures r.Err? ==> r.error != InvalidPlatform
  {
    var s := Strip(v);
    if |v| == 0 || |s| == 0 then Err(EmptyToken)
    else if |s| < MinTokenLength then Err(TokenTooShort)
    else Ok(s)
  }

  /** The error cases, stated through what the value is made of: exactly the
      all-whitespace values are empty, exactly the others whose stripped form is
      under 32 characters are too short, and an accepted value neither starts
      nor ends with whitespace. */
  lemma {:induction false} TokenValueCases(v: string)
    ensures ValidateTokenValue(v) == Err(EmptyToken) <==> AllSpace(v)
    ensures ValidateTokenValue(v) == Err(TokenTooShort) <==> !AllSpace(v) && |Strip(v)| < MinTokenLength
    ensures ValidateTokenValue(v).Ok? ==>
              !IsSpace(Strip(v)[0]) && !IsSpace(Strip(v)[|Strip(v)| - 1])
  {
    StripEmptyIffBlank(v);
    StripIsTrimmedSlice(v);
  }

  /** A stored token value validates to itself. */
  lemma {:induction false} TokenValueIdempotent(v: string)
    requires ValidateTokenValue(v).Ok?
    ensures ValidateTokenValue(ValidateTokenValue(v).value) == ValidateTokenValue(v)
  {
    StripIdempotent(v);
  }

  /** `DeviceToken(value=..., platform=...)`: both field validators run and
      their errors are reported together, value first. */
  function NewDeviceToken(value: string, platform: string): (r: Result<DeviceToken, seq<TokenError>>)
    ensures r.Ok? <==> ValidateTokenValue(value).Ok? && ParsePlatform(platform).Some?
    ensures r.Ok? ==> r.value.value == Strip(value) && PlatformName(r.value.platform) == Lower(platform)
    ensures r.Err? ==> (InvalidPlatform in r.error <==> ParsePlatform(platform).None?)
    ensures r.Err? ==> (ValidateTokenValue(value).Err? <==> |r.error| > 0 && r.error[0] != InvalidPlatform)
  {
    var ve := ValidateTokenValue(value);
    var pe := ParsePlatform(platform);
    if ve.Ok? && pe.Some? then Ok(DeviceToken(ve.value, pe.value))
    else Err((if ve.Err? then [ve.error] else []) + (if pe.None? then [InvalidPlatform] else []))
  }

  /** `__eq__`: tokens are equal when their values are, whatever their platforms. */
  predicate SameToken(a: DeviceToken, b: DeviceToken) {
    a.value == b.value
  }

  /** `__hash__`: the hash is that of the value; this gives the hashed key. */
  function TokenHashKey(t: DeviceToken): string {
    t.value
  }

  /** Equality is an equivalence that ignores the platform, and equal tokens
      hash alike. */
  lemma TokenEqualityByValue(a: DeviceToken, b: DeviceToken, c: DeviceToken, p: Platform)
    ensures SameToken(a, DeviceToken(a.value, p))
    ensures SameToken(a, b) ==> SameToken(b, a) && TokenHashKey(a) == TokenHashKey(b)
    ensures SameToken(a, b) && SameToken(b, c) ==> SameToken(a, c)
  {
  }

  datatype DeviceTokenList = DeviceTokenList(tokens: seq<DeviceToken>, maxTokens: int)

  datatype ListError = NoTokens | TooManyTokens(limit: int) | DuplicateTokens

  function TokenValues(ts: seq<DeviceToken>): (r: seq<string>)
    ensures |r| == |ts| && forall i :: 0 <= i < |ts| ==> r[i] == ts[i].value
  {
    seq(|ts|, i requires 0 <= i < |ts| => ts[i].value)
  }

  /** The `tokens` validator as written: `values.get("max_tokens", 500)` runs
      before `max_tokens` is validated, so the bound is always 500 whatever
      `maxTokens` is. */
  function ValidateTokensAsWritten(v: seq<DeviceToken>, maxTokens: int): (r: Result<seq<DeviceToken>, ListError>)
    ensures r == ValidateTokens(v, DefaultMaxTokens)
  {
    var limit := DefaultMaxTokens;
    if v == [] then Err(NoTokens)
    else if |v| > limit then Err(TooManyTokens(limit))
    else if |TokenValues(v)| != |Elements(TokenValues(v))| then Err(DuplicateTokens)
    else Ok(v)
  }

  /** The `tokens` validator with the list's own bound applied. An accepted
      list is returned unchanged, in order. */
  function ValidateTokens(v: seq<DeviceToken>, maxTokens: int): (r: Result<seq<DeviceToken>, ListError>)
    ensures r == Err(NoTokens) <==> v == []
    ensures r == Err(TooManyTokens(maxTokens)) <==> v != [] && |v| > maxTokens
    ensures r == Err(DuplicateTokens) <==> v != [] && |v| <= maxTokens && !Distinct(TokenValues(v))
    ensures r.Ok? <==> 0 < |v| <= maxTokens && Distinct(TokenValues(v))
    ensures r.Ok? ==> r.value == v
  {
    DistinctIffNoCollapse(TokenValues(v));
    if v == [] then Err(NoTokens)
    else if |v| > maxTokens then Err(TooManyTokens(maxTokens))
    else if |TokenValues(v)| != |Elements(TokenValues(v))| then Err(DuplicateTokens)
    else Ok(v)
  }

  /** Counterexample: with `max_tokens=1` the as-written validator accepts a
      list of two tokens, which the bound was meant to reject. */
  lemma MaxTokensIgnored()
    ensures var v := [DeviceToken("a", Android), DeviceToken("b", Android)];
            ValidateTokensAsWritten(v, 1).Ok? && ValidateTokens(v, 1) == Err(TooManyTokens(1))
  {
    var v := [DeviceToken("a", Android), DeviceToken("b", Android)];
    assert TokenValues(v) == ["a", "b"];
    assert Distinct(TokenValues(v));
  }

  /** Every list the service builds passes the default bound, for which the
      two validators agree. */
  lemma {:induction false} ValidatorsAgreeAtDefault(v: seq<DeviceToken>)
    ensures ValidateTokensAsWritten(v, DefaultMaxTokens) == ValidateTokens(v, DefaultMaxTokens)
  {
  }

  /** `DeviceTokenList(tokens=..., max_tokens=...)`. */
  function NewDeviceTokenList(tokens: seq<DeviceToken>, maxTokens: int := DefaultMaxTokens): (r: Result<DeviceTokenList, ListError>)
    ensures r.Ok? <==> 0 < |tokens| <= maxTokens && Distinct(TokenValues(tokens))
    ensures r.Ok? ==> r.value == DeviceTokenList(tokens, maxTokens)
  {
    match ValidateTokens(tokens, maxTokens)
    case Ok(ts) => Ok(DeviceTokenList(ts, maxTokens))
    case Err(e) => Err(e)
  }

  function PlatformsOf(ts: seq<DeviceToken>): (r: set<Platform>)
    ensures forall p :: p in r <==> exists i :: 0 <= i < |ts| && ts[i].platform == p
  {
    set t | t in ts :: t.platform
  }

  /** `get_platforms`: every platform that occurs, each once (the list's
      order is that of a hash set and is not modelled). */
  function Platforms(l: DeviceTokenList): (r: set<Platform>)
    ensures forall p :: p in r <==> exists i :: 0 <= i < |l.tokens| && l.tokens[i].platform == p
  {
    PlatformsOf(l.tokens)
  }

  /** The values of the tokens on platform `p`, in list order. */
  function ValuesOn(ts: seq<DeviceToken>, p: Platform): seq<string> {
    if ts == [] then []
    else ValuesOn(ts[..|ts| - 1], p) + (if ts[|ts| - 1].platform == p then [ts[|ts| - 1].value] else [])
  }

  /** What the grouping loop has built after the tokens `ts`. */
  function GroupedValues(ts: seq<DeviceToken>): Grouping.Groups<Platform, string> {
    if ts == [] then []
    else Grouping.Append(GroupedValues(ts[..|ts| - 1]), ts[|ts| - 1].platform, ts[|ts| - 1].value)
  }

  lemma {:induction false} GroupedValuesLookup(ts: seq<DeviceToken>, p: Platform)
    ensures Grouping.Lookup(GroupedValues(ts), p) == ValuesOn(ts, p)
  {
    if ts != [] {
      var last := ts[|ts| - 1];
      GroupedValuesLookup(ts[..|ts| - 1], p);
      Grouping.AppendLookup(GroupedValues(ts[..|ts| - 1]), last.platform, last.value, p);
    }
  }

  lemma {:induction false} GroupedValuesKeys(ts: seq<DeviceToken>)
    ensures Grouping.DistinctKeys(GroupedValues(ts))
    ensures forall p :: p in Grouping.Keys(GroupedValues(ts)) <==> p in PlatformsOf(ts)
  {
    if ts == [] {
      assert Grouping.Keys(GroupedValues(ts)) == [];
    } else {
      var init, last := ts[..|ts| - 1], ts[|ts| - 1];
      GroupedValuesKeys(init);
      Grouping.AppendKeys(GroupedValues(init), last.platform, last.value);
      Grouping.AppendDistinct(GroupedValues(init), last.platform, last.value);
      assert PlatformsOf(ts) == PlatformsOf(init) + {last.platform} by {
        assert ts == init + [last];
      }
    }
  }

  lemma {:induction false} GroupedValuesFlatten(ts: seq<DeviceToken>)
    ensures multiset(Grouping.Flatten(GroupedValues(ts))) == multiset(TokenValues(ts))
  {
    if ts != [] {
      var init, last := ts[..|ts| - 1], ts[|ts| - 1];
      GroupedValuesFlatten(init);
      Grouping.AppendFlatten(GroupedValues(init), last.platform, last.value);
      assert TokenValues(ts) == TokenValues(init) + [last.value];
    }
  }

  /** `group_by_platform`: each token value lands in exactly its platform's
      group, in list order; a group exists exactly for each occurring platform,
      once; together the groups are a permutation of the token values. */
  method GroupByPlatform(l: DeviceTokenList) returns (grouped: Grouping.Groups<Platform, string>)
    ensures grouped == GroupedValues(l.tokens)
    ensures forall p :: Grouping.Lookup(grouped, p) == ValuesOn(l.tokens, p)
    ensures Grouping.DistinctKeys(grouped)
    ensures forall p :: p in Grouping.Keys(grouped) <==> p in Platforms(l)
    ensures multiset(Grouping.Flatten(grouped)) == multiset(TokenValues(l.tokens))
  {
    grouped := [];
    for i := 0 to |l.tokens|
      invariant grouped == GroupedValues(l.tokens[..i])
    {
      var token := l.tokens[i];
      assert l.tokens[..i + 1][..i] == l.tokens[..i];
      grouped := Grouping.Append(grouped, token.platform, token.value);
    }
    assert l.tokens[..|l.tokens|] == l.tokens;
    forall p | true
      ensures Grouping.Lookup(grouped, p) == ValuesOn(l.tokens, p)
    {
      GroupedValuesLookup(l.tokens, p);
    }
    GroupedValuesKeys(l.tokens);
    GroupedValuesFlatten(l.tokens);
  }
}
