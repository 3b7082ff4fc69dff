/** Notification types, their priorities and the content policy each type
    carries (src/notification_service/domain/value_objects/notification_type.py). */
module NotificationTypes {
  import opened Wrappers
  import opened Text

  /** The predefined types. */
  datatype Kind = Alert | Silent | Custom | Promotional | Transactional

  function KindName(k: Kind): string {
    match k
    case Alert => "alert"
    case Silent => "silent"
    case Custom => "custom"
    case Promotional => "promotional"
    case Transactional => "transactional"
  }

  /** Looking a value up in the enumeration: exact, case-sensitive match. */
  function ParseKind(s: string): (r: Option<Kind>)
    ensures r.Some? ==> KindName(r.value) == s
    ensures r.None? ==> forall k :: KindName(k) != s
  {
    if s == "alert" then Some(Alert)
    else if s == "silent" then Some(Silent)
    else if s == "custom" then Some(Custom)
    else if s == "promotional" then Some(Promotional)
    else if s == "transactional" then Some(Transactional)
    else None
  }

  lemma KindNameRoundTrip(k: Kind)
    ensures ParseKind(KindName(k)) == Some(k)
  {
  }

  predicate IsPriorityName(s: string) {
    s == "high" || s == "normal" || s == "low"
  }

  datatype TypeError = EmptyType | NotAlphanumeric | InvalidPriority

  /** The shape of an accepted custom type: letters, digits, `_` and `-`,
      with at least one letter or digit. */
  predicate CustomShape(s: string) {
    && (forall i :: 0 <= i < |s| ==> IsAlnumChar(s[i]) || s[i] == '_' || s[i] == '-')
    && (exists i :: 0 <= i < |s| && IsAlnumChar(s[i]))
  }

  /** The `value` validator: blank values are rejected; a value that is not a
      predefined type once lower-cased must be alphanumeric after dropping
      `_` and `-`; the lower-cased value (not stripped) is stored. */
  function ValidateTypeValue(v: string): (r: Result<string, TypeError>)
    ensures r.Ok? ==> r.value == Lower(v)
    ensures r.Err? ==> r.error != InvalidPriority
  {
    if |v| == 0 || |Strip(v)| == 0 then Err(EmptyType)
    else if ParseKind(Lower(v)).None? && !IsAlnum(Remove(Remove(v, '_'), '-')) then Err(NotAlphanumeric)
    else Ok(Lower(v))
  }

  /** Dropping `_` and `-` leaves a non-empty alphanumeric string exactly
      when the value has the custom shape. */
  lemma {:induction false} AlnumAfterRemovalIff(s: string)
    ensures IsAlnum(Remove(Remove(s, '_'), '-')) <==> CustomShape(s)
  {
    var t := Remove(Remove(s, '_'), '-');
    assert forall x :: x in t <==> x in s && x != '_' && x != '-';
    if IsAlnum(t) {
      forall i | 0 <= i < |s|
        ensures IsAlnumChar(s[i]) || s[i] == '_' || s[i] == '-'
      {
        if s[i] != '_' && s[i] != '-' {
          assert s[i] in t;
        }
      }
      assert t[0] in s;
    }
    if CustomShape(s) {
      forall j | 0 <= j < |t|
        ensures IsAlnumChar(t[j])
      {
        assert t[j] in s;
      }
      var i :| 0 <= i < |s| && IsAlnumChar(s[i]);
      assert s[i] in t;
    }
  }

  lemma {:induction false} LowerKeepsCustomShape(s: string)
    requires CustomShape(s)
    ensures CustomShape(Lower(s))
  {
    var i :| 0 <= i < |s| && IsAlnumChar(s[i]);
    assert IsAlnumChar(Lower(s)[i]);
  }

  lemma {:induction false} LowerKeepsBlank(s: string)
    ensures AllSpace(Lower(s)) <==> AllSpace(s)
  {
    if !AllSpace(s) {
      var i :| 0 <= i < |s| && !IsSpace(s[i]);
      assert !IsSpace(Lower(s)[i]);
    }
  }

  /** What an accepted value looks like, and which error a rejected one draws:
      the value is stored in lower case and is either a predefined type's name
      or of the custom shape; exactly the blank values are empty. */
  lemma {:induction false} TypeValueCases(v: string)
    ensures ValidateTypeValue(v) == Err(EmptyType) <==> AllSpace(v)
    ensures ValidateTypeValue(v) == Err(NotAlphanumeric) <==>
              !AllSpace(v) && ParseKind(Lower(v)).None? && !CustomShape(v)
    ensures ValidateTypeValue(v).Ok? ==>
              var t := ValidateTypeValue(v).value;
              (forall i :: 0 <= i < |t| ==> !IsUpperChar(t[i]))
              && (ParseKind(t).Some? || CustomShape(t))
  {
    StripEmptyIffBlank(v);
    AlnumAfterRemovalIff(v);
    if ValidateTypeValue(v).Ok? && ParseKind(Lower(v)).None? {
      LowerKeepsCustomShape(v);
    }
  }

  /** A stored type value validates to itself. */
  lemma {:induction false} TypeValueIdempotent(v: string)
    requires ValidateTypeValue(v).Ok?
    ensures ValidateTypeValue(ValidateTypeValue(v).value) == ValidateTypeValue(v)
  {
    var t := Lower(v);
    LowerIdempotent(v);
    StripEmptyIffBlank(v);
    StripEmptyIffBlank(t);
    LowerKeepsBlank(v);
    assert |t| != 0 && |Strip(t)| != 0;
    if ParseKind(t).None? {
      AlnumAfterRemovalIff(v);
      AlnumAfterRemovalIff(t);
      LowerKeepsCustomShape(v);
    }
  }

  /** The `priority` validator: case-insensitive, stored in lower case. */
  function ValidatePriority(v: string): (r: Result<string, TypeError>)
    ensures r.Ok? ==> IsPriorityName(r.value) && r.value == Lower(v)
    ensures r.Err? ==> r.error == InvalidPriority
  {
    if IsPriorityName(Lower(v)) then Ok(Lower(v)) else Err(InvalidPriority)
  }

  lemma {:induction false} PriorityCaseInsensitive(v: string)
    ensures ValidatePriority(Lower(v)) == ValidatePriority(v)
    ensures ValidatePriority(v).Ok? ==> ValidatePriority(ValidatePriority(v).value) == ValidatePriority(v)
  {
    LowerIdempotent(v);
  }

  datatype NotificationType = NotificationType(
    value: string,
    templateId: Option<string>,
    priority: string,
    ttl: Option<int>)

  /** `NotificationType(value=..., template_id=..., priority=..., ttl=...)`:
      a missing priority defaults to "normal" without being validated; both
      validators run and their errors are reported together, value first. */
  function NewNotificationType(value: string, templateId: Option<string>, priority: Option<string>, ttl: Option<int>)
    : (r: Result<NotificationType, seq<TypeError>>)
    ensures r.Ok? <==> ValidateTypeValue(value).Ok? && (priority.None? || ValidatePriority(priority.value).Ok?)
    ensures r.Ok? ==> r.value.value == Lower(value) && IsPriorityName(r.value.priority)
                      && r.value.templateId == templateId && r.value.ttl == ttl
    ensures r.Err? ==> 0 < |r.error| <= 2 && (InvalidPriority in r.error <==> priority.Some? && ValidatePriority(priority.value).Err?)
  {
    var ve := ValidateTypeValue(value);
    var pe := if priority.Some? then ValidatePriority(priority.value) else Ok("normal");
    if ve.Ok? && pe.Ok? then Ok(NotificationType(ve.value, templateId, pe.value, ttl))
    else Err((if ve.Err? then [ve.error] else []) + (if pe.Err? then [pe.error] else []))
  }

  /** `is_predefined`: the stored value names a predefined type. */
  function IsPredefined(t: NotificationType): (r: bool)
    ensures r <==> exists k :: KindName(k) == t.value
  {
    var k := ParseKind(t.value);
    if k.Some? then assert KindName(k.value) == t.value; true else false
  }

  /** The policy `get_template_config` returns. */
  datatype TemplatePolicy = TemplatePolicy(
    requiresTitle: bool,
    requiresBody: bool,
    supportsData: bool,
    defaultPriority: string)

  /** `get_template_config`: alert needs title and body and defaults to high
      priority; silent and custom need neither; every other value (the other
      predefined types and any custom value) needs both. Every type supports
      data, and the default priority is always a valid priority. */
  function GetTemplateConfig(t: NotificationType): (r: TemplatePolicy)
    ensures r.supportsData
    ensures r.requiresTitle == r.requiresBody
    ensures !r.requiresTitle <==> t.value == KindName(Silent) || t.value == KindName(Custom)
    ensures r.defaultPriority == "high" <==> t.value == KindName(Alert)
    ensures IsPriorityName(r.defaultPriority) && r.defaultPriority != "low"
  {
    if t.value == "alert" then TemplatePolicy(true, true, true, "high")
    else if t.value == "silent" then TemplatePolicy(false, false, true, "normal")
    else if t.value == "custom" then TemplatePolicy(false, false, true, "normal")
    else TemplatePolicy(true, true, true, "normal")
  }
}
