/**
 * The handle-entry step (components/HandleInput.tsx): the per-platform rule
 * table, the ordered checks of `validateHandle`, the '@' handling of input
 * and submission, and the form's `handle`/`error` state.
 */
module HandleInput {
  import opened Types
  import opened JsString

  /** The character classes of the table's patterns, `[a-zA-Z0-9...]` plus extras. */
  datatype CharClass =
    | LettersDigitsUnderscore
    | LettersDigitsUnderscorePeriod
    | LettersDigitsPeriod
    | LettersDigitsHyphen

  predicate IsAsciiLetterOrDigit(c: char) {
    ('a' <= c <= 'z') || ('A' <= c <= 'Z') || ('0' <= c <= '9')
  }

  predicate InClass(cls: CharClass, c: char) {
    IsAsciiLetterOrDigit(c) ||
    match cls
    case LettersDigitsUnderscore => c == '_'
    case LettersDigitsUnderscorePeriod => c == '_' || c == '.'
    case LettersDigitsPeriod => c == '.'
    case LettersDigitsHyphen => c == '-'
  }

  /**
   * `/^[class]+$/.test(s)`: one or more characters, all of them in the class.
   * A match holds no '@' and no whitespace, and ends with a period only for
   * the two classes that admit one.
   */
  predicate MatchesPattern(cls: CharClass, s: string): (m: bool)
    ensures m ==> |s| > 0 && '@' !in s && forall k :: 0 <= k < |s| ==> !IsWhitespace(s[k])
    ensures m && s[|s| - 1] == '.' ==> cls == LettersDigitsUnderscorePeriod || cls == LettersDigitsPeriod
  {
    |s| > 0 && forall k :: 0 <= k < |s| ==> InClass(cls, s[k])
  }

  datatype Rule = Rule(allowed: CharClass, minLength: nat, maxLength: nat, errorMessage: string)

  const TwitterMessage := "Twitter handles must be 4-15 characters and can only contain letters, numbers, and underscores."
  const InstagramMessage := "Instagram handles must be 1-30 characters and can only contain letters, numbers, underscores, and periods."
  const FacebookMessage := "Facebook usernames must be at least 5 characters long and can only contain letters, numbers, and periods."
  const LinkedInMessage := "LinkedIn vanity URLs must be 3-100 characters long and can only contain letters, numbers, and hyphens."
  const TikTokMessage := "TikTok usernames must be 2-24 characters long and can only contain letters, numbers, underscores, and periods."

  /** The static `validationRules` table. */
  function RuleFor(p: Platform): (r: Rule)
    ensures 1 <= r.minLength <= r.maxLength
  {
    match p
    case Twitter => Rule(LettersDigitsUnderscore, 4, 15, TwitterMessage)
    case Instagram => Rule(LettersDigitsUnderscorePeriod, 1, 30, InstagramMessage)
    case Facebook => Rule(LettersDigitsPeriod, 5, 50, FacebookMessage)
    case LinkedIn => Rule(LettersDigitsHyphen, 3, 100, LinkedInMessage)
    case TikTok => Rule(LettersDigitsUnderscorePeriod, 2, 24, TikTokMessage)
  }

  /** The extra policy `validateHandle` applies to Instagram and TikTok only. */
  predicate ForbidsTrailingPeriod(p: Platform) {
    p == Instagram || p == TikTok
  }

  /**
   * `A ${platform} username cannot end with a period.`: it names the network
   * and differs from every message of the table.
   */
  function TrailingPeriodMessage(p: Platform): (msg: string)
    ensures |msg| > 2 + |PlatformName(p)| && msg[2..2 + |PlatformName(p)|] == PlatformName(p)
    ensures forall q :: msg != RuleFor(q).errorMessage
  {
    "A " + PlatformName(p) + " username cannot end with a period."
  }

  /** `!value.trim()`: the value trims to the empty string. */
  predicate IsBlank(value: string): (blank: bool)
    ensures blank <==> AllWhitespace(value)
  {
    Trim(value) == []
  }

  predicate LengthInBounds(p: Platform, value: string) {
    RuleFor(p).minLength <= |value| <= RuleFor(p).maxLength
  }

  predicate EndsWithPeriod(value: string) {
    |value| > 0 && value[|value| - 1] == '.'
  }

  /**
   * What a handle must be, stated without the order of the checks and without
   * the blank test: within the platform's length bounds, made only of the
   * platform's characters, and not ending in '.' where that is forbidden.
   */
  predicate Acceptable(p: Platform, value: string) {
    && LengthInBounds(p, value)
    && (forall k :: 0 <= k < |value| ==> InClass(RuleFor(p).allowed, value[k]))
    && !(ForbidsTrailingPeriod(p) && EndsWithPeriod(value))
  }

  /** The verdict of `validateHandle`: its return value and the error it sets. */
  datatype Verdict = Verdict(valid: bool, message: Option<string>)

  /**
   * `validateHandle(value)` for the given platform. The first failing check
   * decides the message; a blank value is invalid but shows no message.
   */
  function Validate(p: Platform, value: string): (r: Verdict)
    ensures r.valid <==> Acceptable(p, value)
    ensures r.valid ==> r.message == None
    ensures IsBlank(value) ==> r == Verdict(false, None)
    ensures !IsBlank(value) && !LengthInBounds(p, value) ==> r == Verdict(false, Some(RuleFor(p).errorMessage))
    ensures !IsBlank(value) && LengthInBounds(p, value) && !MatchesPattern(RuleFor(p).allowed, value) ==>
              r == Verdict(false, Some(RuleFor(p).errorMessage))
    ensures LengthInBounds(p, value) && MatchesPattern(RuleFor(p).allowed, value) &&
            ForbidsTrailingPeriod(p) && EndsWithPeriod(value) ==>
              r == Verdict(false, Some(TrailingPeriodMessage(p)))
  {
    AcceptableIsNotBlank(p, value);
    var rules := RuleFor(p);
    if IsBlank(value) then Verdict(false, None)
    else if |value| < rules.minLength || |value| > rules.maxLength then Verdict(false, Some(rules.errorMessage))
    else if !MatchesPattern(rules.allowed, value) then Verdict(false, Some(rules.errorMessage))
    else if ForbidsTrailingPeriod(p) && EndsWithPeriod(value) then Verdict(false, Some(TrailingPeriodMessage(p)))
    else Verdict(true, None)
  }

  /** The blank check never rejects a value the other rules accept. */
  lemma {:induction false} AcceptableIsNotBlank(p: Platform, value: string)
    ensures Acceptable(p, value) ==> !IsBlank(value)
  {
    if Acceptable(p, value) {
      assert !IsWhitespace(value[0]) by {
        assert InClass(RuleFor(p).allowed, value[0]);
      }
      StripEmptyIff(value, Whitespace);
    }
  }

  /** No pattern admits '@' or whitespace. */
  lemma {:induction false} InClassIsPlain(cls: CharClass, c: char)
    requires InClass(cls, c)
    ensures c != '@' && !IsWhitespace(c)
  {
  }

  /** A handle that passes validation holds neither '@' nor whitespace. */
  lemma {:induction false} ValidHandleShape(p: Platform, value: string)
    requires Acceptable(p, value)
    ensures forall k :: 0 <= k < |value| ==> value[k] != '@' && !IsWhitespace(value[k])
  {
    forall k | 0 <= k < |value|
      ensures value[k] != '@' && !IsWhitespace(value[k])
    {
      InClassIsPlain(RuleFor(p).allowed, value[k]);
    }
  }

  /** The input's new value: `e.target.value.replace('@', '')` drops the first '@' only. */
  function InputValue(raw: string): (value: string)
    ensures '@' in raw ==> |value| == |raw| - 1
    ensures '@' in raw ==> exists i :: 0 <= i < |raw| && raw[i] == '@' && '@' !in raw[..i] && value == raw[..i] + raw[i + 1..]
    ensures '@' !in raw ==> value == raw
  {
    RemoveFirst(raw, '@')
  }

  /** `handle.startsWith('@') ? handle : '@' + handle`. */
  function WithAt(handle: string): (r: string)
    ensures |r| > 0 && r[0] == '@'
    ensures |handle| > 0 && handle[0] == '@' ==> r == handle
    ensures !(|handle| > 0 && handle[0] == '@') ==> r[1..] == handle
  {
    if |handle| > 0 && handle[0] == '@' then handle else "@" + handle
  }

  /** What `handleSubmit` passes to `onSubmit`, if anything. */
  function Emitted(p: Platform, handle: string): (r: Option<string>)
    ensures r.Some? <==> Acceptable(p, handle)
    ensures r.Some? ==> |r.value| > 0 && r.value[0] == '@'
  {
    AcceptableIsNotBlank(p, handle);
    if !IsBlank(handle) && Validate(p, handle).valid then Some(WithAt(handle)) else None
  }

  /** A string the handle step can hand to the wizard: '@' followed by a valid handle. */
  predicate Emits(p: Platform, e: string) {
    |e| > 0 && e[0] == '@' && Acceptable(p, e[1..])
  }

  /**
   * Submission happens exactly for valid handles, and then the emitted value
   * is the handle behind exactly one '@'.
   */
  lemma {:induction false} EmittedShape(p: Platform, handle: string)
    ensures Emitted(p, handle).Some? <==> Validate(p, handle).valid
    ensures Emitted(p, handle).Some? ==>
              && Emitted(p, handle).value == "@" + handle
              && Emits(p, Emitted(p, handle).value)
              && forall k :: 1 <= k < |Emitted(p, handle).value| ==> Emitted(p, handle).value[k] != '@'
  {
    AcceptableIsNotBlank(p, handle);
    if Validate(p, handle).valid {
      EmittedWhenValid(p, handle);
      AtPrefixedEmits(p, handle);
    }
  }

  lemma {:induction false} EmittedWhenValid(p: Platform, handle: string)
    requires Acceptable(p, handle)
    ensures Emitted(p, handle) == Some("@" + handle)
  {
    AcceptableIsNotBlank(p, handle);
    ValidHandleShape(p, handle);
    assert Validate(p, handle).valid;
    assert WithAt(handle) == "@" + handle by { assert handle[0] != '@'; }
  }

  lemma {:induction false} AtPrefixedEmits(p: Platform, handle: string)
    requires Acceptable(p, handle)
    ensures Emits(p, "@" + handle)
    ensures forall k :: 1 <= k < |"@" + handle| ==> ("@" + handle)[k] != '@'
  {
    ValidHandleShape(p, handle);
    var e := "@" + handle;
    assert e[1..] == handle;
  }

  /** Whatever the handle step may emit is re-emitted from the handle behind its '@'. */
  lemma {:induction false} EmitsRoundTrip(p: Platform, e: string)
    requires Emits(p, e)
    ensures Emitted(p, e[1..]) == Some(e)
  {
    EmittedWhenValid(p, e[1..]);
    assert "@" + e[1..] == e;
  }

  /** Twitter's lower bound: three characters are too few, with the table's message. */
  lemma TwitterTooShort()
    ensures Validate(Twitter, "abc") == Verdict(false, Some(TwitterMessage))
  {
    NotBlankAt("abc", 0);
  }

  /** Twitter's lower bound: four characters are enough. */
  lemma TwitterShortest()
    ensures Validate(Twitter, "abcd").valid
  {
    assert Acceptable(Twitter, "abcd");
  }

  /** Twitter's upper bound: sixteen letters are too many. */
  lemma TwitterTooLong()
    ensures Validate(Twitter, "abcdefghijklmnop") == Verdict(false, Some(TwitterMessage))
  {
    NotBlankAt("abcdefghijklmnop", 0);
  }

  /** Instagram accepts a period inside a handle. */
  lemma InstagramInnerPeriod()
    ensures Validate(Instagram, "user.name").valid
  {
    assert Acceptable(Instagram, "user.name");
  }

  /** Instagram rejects a trailing period with the platform-naming message. */
  lemma InstagramTrailingPeriod()
    ensures Validate(Instagram, "user.name.") == Verdict(false, Some(TrailingPeriodMessage(Instagram)))
  {
    assert EndsWithPeriod("user.name.");
    assert MatchesPattern(LettersDigitsUnderscorePeriod, "user.name.");
  }

  /** Instagram rejects a space with the table's message. */
  lemma InstagramSpace()
    ensures Validate(Instagram, "user name") == Verdict(false, Some(InstagramMessage))
  {
    NotBlankAt("user name", 0);
    assert LengthInBounds(Instagram, "user name");
    assert !MatchesPattern(LettersDigitsUnderscorePeriod, "user name") by {
      assert !InClass(LettersDigitsUnderscorePeriod, "user name"[4]);
    }
  }

  /** Only the first '@' is removed: "@@demo" becomes "@demo". */
  lemma InputDropsFirstAtOnly()
    ensures InputValue("@@demo") == "@demo"
  {
  }

  /** The '@' left behind by a doubled prefix is then rejected. */
  lemma LeftoverAtIsRejected()
    ensures Validate(Twitter, "@demo") == Verdict(false, Some(TwitterMessage))
  {
    NotBlankAt("@demo", 0);
    assert !MatchesPattern(LettersDigitsUnderscore, "@demo") by {
      assert !InClass(LettersDigitsUnderscore, "@demo"[0]);
    }
  }

  lemma {:induction false} NotBlankAt(s: string, k: nat)
    requires k < |s| && !IsWhitespace(s[k])
    ensures !IsBlank(s)
  {
    StripEmptyIff(s, Whitespace);
  }

  /** The handle step's form: the typed `handle` and the displayed `error`. */
  class HandleForm {
    const platform: Platform
    var handle: string
    var error: Option<string>

    /** The displayed error is always the verdict on the current handle. */
    ghost predicate Valid()
      reads this
    {
      error == Validate(platform, handle).message
    }

    constructor (platform: Platform)
      ensures this.platform == platform && handle == "" && error == None
      ensures Valid()
    {
      this.platform := platform;
      handle := "";
      error := None;
      NotBlankEmpty();
    }

    /** `validateHandle`: returns the verdict and sets `error` to its message. */
    method ValidateHandle(value: string) returns (ok: bool)
      modifies this`error
      ensures ok == Validate(platform, value).valid
      ensures error == Validate(platform, value).message
    {
      var v := Validate(platform, value);
      error := v.message;
      ok := v.valid;
    }

    /** `handleInputChange`: store the value without its first '@', then validate it. */
    method InputChange(raw: string)
      modifies this
      ensures handle == InputValue(raw)
      ensures Valid()
    {
      handle := InputValue(raw);
      var _ := ValidateHandle(handle);
    }

    /** The Continue button's `disabled` condition. */
    function SubmitDisabled(): (disabled: bool)
      reads this
      requires Valid()
      ensures disabled <==> !Validate(platform, handle).valid
    {
      AcceptableIsNotBlank(platform, handle);
      IsBlank(handle) || error.Some?
    }

    /** `handleSubmit`: re-validate, then emit '@' + handle when it is non-blank and valid. */
    method Submit() returns (emitted: Option<string>)
      modifies this`error
      ensures error == Validate(platform, handle).message
      ensures emitted == Emitted(platform, handle)
      ensures emitted.Some? <==> Validate(platform, handle).valid
      ensures emitted.Some? ==> emitted.value == "@" + handle && Emits(platform, emitted.value)
    {
      var isValid := ValidateHandle(handle);
      if !IsBlank(handle) && isValid {
        emitted := Some(WithAt(handle));
      } else {
        emitted := None;
      }
      EmittedShape(platform, handle);
    }
  }

  lemma NotBlankEmpty()
    ensures IsBlank("")
  {
    StripEmptyIff("", Whitespace);
  }
}
