/**
 * The AI-assist endpoints' per-user, fixed-window rate limits. Counters live
 * in a cache keyed by a per-user string, one key family for description
 * enhancement and one for image generation. A request's prompt is validated
 * first, then its counter is checked, then the AI service is called; the
 * counter grows by one only after the service succeeds. The AI service is a
 * parameter (`AiOutcome`); the cache's one-hour expiry is the separate step
 * `ExpireKey`.
 */
module RateLimit {
  import opened Wrappers
  import opened Text

  const RATE_LIMIT_MAX: nat := 5
  const RATE_LIMIT_WINDOW: nat := 3600
  const IMAGE_RATE_LIMIT_MAX: nat := 3
  const IMAGE_RATE_LIMIT_WINDOW: nat := 3600
  const ENHANCE_PROMPT_MAX_LENGTH: nat := 200
  const IMAGE_PROMPT_MAX_LENGTH: nat := 300

  const ENHANCE_KEY_PREFIX: string := "ratelimit:enhance:"
  const IMAGE_KEY_PREFIX: string := "ratelimit:image:"

  function DigitChar(d: nat): char
    requires d < 10
  {
    ('0' as int + d) as char
  }

  /** `str(n)` for a user id. */
  function Decimal(n: nat): (s: string)
    ensures |s| >= 1 && (n < 10 <==> |s| == 1)
    ensures s[|s| - 1] == DigitChar(n % 10)
  {
    if n < 10 then [DigitChar(n)] else Decimal(n / 10) + [DigitChar(n % 10)]
  }

  /** Different ids print differently. */
  lemma {:induction false} DecimalInjective(a: nat, b: nat)
    requires Decimal(a) == Decimal(b)
    ensures a == b
  {
    var s, t := Decimal(a), Decimal(b);
    assert DigitChar(a % 10) == s[|s| - 1] == t[|t| - 1] == DigitChar(b % 10);
    if 10 <= a {
      assert Decimal(a / 10) == s[..|s| - 1] == t[..|t| - 1] == Decimal(b / 10);
      DecimalInjective(a / 10, b / 10);
    }
  }

  function RateLimitKey(userId: nat): string {
    ENHANCE_KEY_PREFIX + Decimal(userId)
  }

  function ImageRateLimitKey(userId: nat): string {
    IMAGE_KEY_PREFIX + Decimal(userId)
  }

  /** Every user has a counter of each kind of their own, and the two kinds never share a key. */
  lemma KeysSeparate(a: nat, b: nat)
    ensures RateLimitKey(a) == RateLimitKey(b) ==> a == b
    ensures ImageRateLimitKey(a) == ImageRateLimitKey(b) ==> a == b
    ensures RateLimitKey(a) != ImageRateLimitKey(b)
  {
    if RateLimitKey(a) == RateLimitKey(b) {
      assert Decimal(a) == RateLimitKey(a)[|ENHANCE_KEY_PREFIX|..] == RateLimitKey(b)[|ENHANCE_KEY_PREFIX|..] == Decimal(b);
      DecimalInjective(a, b);
    }
    if ImageRateLimitKey(a) == ImageRateLimitKey(b) {
      assert Decimal(a) == ImageRateLimitKey(a)[|IMAGE_KEY_PREFIX|..] == ImageRateLimitKey(b)[|IMAGE_KEY_PREFIX|..] == Decimal(b);
      DecimalInjective(a, b);
    }
    assert RateLimitKey(a)[10] == 'e' && ImageRateLimitKey(b)[10] == 'i';
  }

  /** What the AI service did with a prompt: a result, a configuration error with its message, or another failure. */
  datatype AiOutcome = Produced(value: string) | ConfigError(message: string) | ServiceError

  /** An endpoint's answer. */
  datatype AiResponse =
    | Enhanced(result: string, remainingRequests: nat)
    | Image(imageUrl: string)
    | Error(code: nat, message: string)

  const PROMPT_REQUIRED: AiResponse := Error(400, "prompt is required")
  const ENHANCE_PROMPT_TOO_LONG: AiResponse := Error(400, "prompt must be 200 characters or fewer")
  const IMAGE_PROMPT_TOO_LONG: AiResponse := Error(400, "prompt must be 300 characters or fewer")
  const ENHANCE_RATE_LIMITED: AiResponse := Error(429, "Rate limit exceeded. Max 5 requests per hour.")
  const IMAGE_RATE_LIMITED: AiResponse := Error(429, "Rate limit exceeded. Max 3 image requests per hour.")
  const ENHANCE_UNAVAILABLE: AiResponse := Error(503, "AI service temporarily unavailable. Please try again.")
  const IMAGE_UNAVAILABLE: AiResponse := Error(503, "Image generation temporarily unavailable. Please try again.")

  /** The prompt an endpoint works with: the request's, or empty, stripped. */
  function Prompt(raw: Option<string>): string {
    Strip(if raw.Some? then raw.value else "")
  }

  /** The prompt check both endpoints make, with their own length limit and its message. */
  function CheckPrompt(raw: Option<string>, maxLength: nat, tooLong: AiResponse): (r: Option<AiResponse>)
    ensures r.None? <==> Prompt(raw) != [] && |Prompt(raw)| <= maxLength
    ensures Prompt(raw) == [] ==> r == Some(PROMPT_REQUIRED)
    ensures Prompt(raw) != [] && |Prompt(raw)| > maxLength ==> r == Some(tooLong)
  {
    var prompt := Prompt(raw);
    if prompt == [] then Some(PROMPT_REQUIRED)
    else if |prompt| > maxLength then Some(tooLong)
    else None
  }

  function CheckEnhancePrompt(raw: Option<string>): Option<AiResponse> {
    CheckPrompt(raw, ENHANCE_PROMPT_MAX_LENGTH, ENHANCE_PROMPT_TOO_LONG)
  }

  function CheckImagePrompt(raw: Option<string>): Option<AiResponse> {
    CheckPrompt(raw, IMAGE_PROMPT_MAX_LENGTH, IMAGE_PROMPT_TOO_LONG)
  }

  /** `cache.get(key, 0)`. */
  function CountIn(cache: map<string, nat>, key: string): nat {
    if key in cache then cache[key] else 0
  }

  /** A user's enhancement count. */
  function EnhanceCount(cache: map<string, nat>, userId: nat): nat {
    CountIn(cache, RateLimitKey(userId))
  }

  /** A user's image count. */
  function ImageCount(cache: map<string, nat>, userId: nat): nat {
    CountIn(cache, ImageRateLimitKey(userId))
  }

  /** No counter in the cache exceeds its endpoint's maximum. */
  ghost predicate Bounded(cache: map<string, nat>) {
    && (forall u: nat :: EnhanceCount(cache, u) <= RATE_LIMIT_MAX)
    && (forall u: nat :: ImageCount(cache, u) <= IMAGE_RATE_LIMIT_MAX)
  }

  /** Counting one more enhancement below the maximum keeps every counter bounded. */
  lemma BumpEnhanceBounded(cache: map<string, nat>, userId: nat)
    requires Bounded(cache) && CountIn(cache, RateLimitKey(userId)) < RATE_LIMIT_MAX
    ensures Bounded(cache[RateLimitKey(userId) := CountIn(cache, RateLimitKey(userId)) + 1])
  {
    var next := cache[RateLimitKey(userId) := CountIn(cache, RateLimitKey(userId)) + 1];
    forall u: nat
      ensures EnhanceCount(next, u) <= RATE_LIMIT_MAX
      ensures ImageCount(next, u) <= IMAGE_RATE_LIMIT_MAX
    {
      assert EnhanceCount(cache, u) <= RATE_LIMIT_MAX && ImageCount(cache, u) <= IMAGE_RATE_LIMIT_MAX;
      KeysSeparate(u, userId);
      KeysSeparate(userId, u);
    }
  }

  /** Counting one more image below the maximum keeps every counter bounded. */
  lemma BumpImageBounded(cache: map<string, nat>, userId: nat)
    requires Bounded(cache) && CountIn(cache, ImageRateLimitKey(userId)) < IMAGE_RATE_LIMIT_MAX
    ensures Bounded(cache[ImageRateLimitKey(userId) := CountIn(cache, ImageRateLimitKey(userId)) + 1])
  {
    var next := cache[ImageRateLimitKey(userId) := CountIn(cache, ImageRateLimitKey(userId)) + 1];
    forall u: nat
      ensures EnhanceCount(next, u) <= RATE_LIMIT_MAX
      ensures ImageCount(next, u) <= IMAGE_RATE_LIMIT_MAX
    {
      assert EnhanceCount(cache, u) <= RATE_LIMIT_MAX && ImageCount(cache, u) <= IMAGE_RATE_LIMIT_MAX;
      KeysSeparate(userId, u);
      KeysSeparate(u, userId);
    }
  }

  /** Dropping a counter keeps every counter bounded. */
  lemma ExpireBounded(cache: map<string, nat>, key: string)
    requires Bounded(cache)
    ensures Bounded(cache - {key})
  {
    var next := cache - {key};
    forall u: nat
      ensures EnhanceCount(next, u) <= RATE_LIMIT_MAX
      ensures ImageCount(next, u) <= IMAGE_RATE_LIMIT_MAX
    {
      assert EnhanceCount(next, u) <= EnhanceCount(cache, u);
      assert ImageCount(next, u) <= ImageCount(cache, u);
    }
  }

  class RateLimiter {
    var cache: map<string, nat>

    constructor ()
      ensures cache == map[]
    {
      cache := map[];
    }

    function Count(key: string): nat
      reads this
    {
      CountIn(cache, key)
    }

    /** No counter exceeds its endpoint's maximum. */
    ghost predicate Valid()
      reads this
    {
      Bounded(cache)
    }

    /** Allowed while the user's enhancement count is below the maximum; `remaining` counts this request as used. */
    method CheckRateLimit(userId: nat) returns (allowed: bool, remaining: nat)
      ensures allowed <==> Count(RateLimitKey(userId)) < RATE_LIMIT_MAX
      ensures allowed ==> remaining == RATE_LIMIT_MAX - Count(RateLimitKey(userId)) - 1
      ensures !allowed ==> remaining == 0
      ensures remaining < RATE_LIMIT_MAX
    {
      var count := Count(RateLimitKey(userId));
      if count >= RATE_LIMIT_MAX {
        return false, 0;
      }
      return true, RATE_LIMIT_MAX - count - 1;
    }

    /** Stores the user's enhancement count plus one. */
    method IncrementRateLimit(userId: nat)
      modifies this
      ensures cache == old(cache)[RateLimitKey(userId) := old(Count(RateLimitKey(userId))) + 1]
    {
      var key := RateLimitKey(userId);
      var count := Count(key);
      cache := cache[key := count + 1];
    }

    /** The cache drops a counter once its window has passed. */
    method ExpireKey(key: string)
      requires Valid()
      modifies this
      ensures Valid()
      ensures cache == old(cache) - {key}
    {
      ExpireBounded(cache, key);
      cache := cache - {key};
    }

    /** Description enhancement: prompt check, rate check, AI call, then the count. */
    method EnhanceJob(userId: nat, rawPrompt: Option<string>, ai: AiOutcome)
      returns (response: AiResponse, aiPrompt: Option<string>)
      requires Valid()
      modifies this
      ensures Valid()
      ensures aiPrompt.Some? <==> CheckEnhancePrompt(rawPrompt).None?
                                  && old(Count(RateLimitKey(userId))) < RATE_LIMIT_MAX
      ensures aiPrompt.Some? ==> aiPrompt.value == Prompt(rawPrompt)
      ensures CheckEnhancePrompt(rawPrompt).Some? ==>
        response == CheckEnhancePrompt(rawPrompt).value
      ensures CheckEnhancePrompt(rawPrompt).None? && old(Count(RateLimitKey(userId))) >= RATE_LIMIT_MAX ==>
        response == ENHANCE_RATE_LIMITED
      ensures aiPrompt.Some? && ai.ConfigError? ==> response == Error(503, ai.message)
      ensures aiPrompt.Some? && ai.ServiceError? ==>
        response == ENHANCE_UNAVAILABLE
      ensures aiPrompt.Some? && ai.Produced? ==>
        response == Enhanced(ai.value, RATE_LIMIT_MAX - old(Count(RateLimitKey(userId))) - 1)
        && cache == old(cache)[RateLimitKey(userId) := old(Count(RateLimitKey(userId))) + 1]
      ensures !(aiPrompt.Some? && ai.Produced?) ==> cache == old(cache)
    {
      aiPrompt := None;
      var rejected := CheckEnhancePrompt(rawPrompt);
      if rejected.Some? {
        return rejected.value, None;
      }
      var prompt := Prompt(rawPrompt);
      var allowed, remaining := CheckRateLimit(userId);
      if !allowed {
        return ENHANCE_RATE_LIMITED, None;
      }
      aiPrompt := Some(prompt);
      response := CallEnhanceService(userId, ai, remaining);
    }

    /** The enhancement endpoint once its checks passed: the service's answer, and the count on success. */
    method CallEnhanceService(userId: nat, ai: AiOutcome, remaining: nat) returns (response: AiResponse)
      requires Valid() && Count(RateLimitKey(userId)) < RATE_LIMIT_MAX
      modifies this
      ensures Valid()
      ensures ai.ConfigError? ==> response == Error(503, ai.message) && cache == old(cache)
      ensures ai.ServiceError? ==> response == ENHANCE_UNAVAILABLE && cache == old(cache)
      ensures ai.Produced? ==>
        response == Enhanced(ai.value, remaining)
        && cache == old(cache)[RateLimitKey(userId) := old(Count(RateLimitKey(userId))) + 1]
    {
      match ai
      case ConfigError(message) =>
        response := Error(503, message);
      case ServiceError =>
        response := ENHANCE_UNAVAILABLE;
      case Produced(result) =>
        BumpEnhanceBounded(cache, userId);
        IncrementRateLimit(userId);
        response := Enhanced(result, remaining);
    }

    /** Image generation: prompt check, its own rate check, AI call, then its own count. */
    method GenerateImage(userId: nat, rawPrompt: Option<string>, ai: AiOutcome)
      returns (response: AiResponse, aiPrompt: Option<string>)
      requires Valid()
      modifies this
      ensures Valid()
      ensures aiPrompt.Some? <==> CheckImagePrompt(rawPrompt).None?
                                  && old(Count(ImageRateLimitKey(userId))) < IMAGE_RATE_LIMIT_MAX
      ensures aiPrompt.Some? ==> aiPrompt.value == Prompt(rawPrompt)
      ensures CheckImagePrompt(rawPrompt).Some? ==>
        response == CheckImagePrompt(rawPrompt).value
      ensures CheckImagePrompt(rawPrompt).None? && old(Count(ImageRateLimitKey(userId))) >= IMAGE_RATE_LIMIT_MAX ==>
        response == IMAGE_RATE_LIMITED
      ensures aiPrompt.Some? && ai.ConfigError? ==> response == Error(503, ai.message)
      ensures aiPrompt.Some? && ai.ServiceError? ==>
        response == IMAGE_UNAVAILABLE
      ensures aiPrompt.Some? && ai.Produced? ==>
        response == Image(ai.value)
        && cache == old(cache)[ImageRateLimitKey(userId) := old(Count(ImageRateLimitKey(userId))) + 1]
      ensures !(aiPrompt.Some? && ai.Produced?) ==> cache == old(cache)
    {
      aiPrompt := None;
      var rejected := CheckImagePrompt(rawPrompt);
      if rejected.Some? {
        return rejected.value, None;
      }
      var prompt := Prompt(rawPrompt);
      var key := ImageRateLimitKey(userId);
      var count := Count(key);
      if count >= IMAGE_RATE_LIMIT_MAX {
        return IMAGE_RATE_LIMITED, None;
      }
      aiPrompt := Some(prompt);
      match ai
      case ConfigError(message) =>
        response := Error(503, message);
      case ServiceError =>
        response := IMAGE_UNAVAILABLE;
      case Produced(imageUrl) =>
        BumpImageBounded(cache, userId);
        cache := cache[key := count + 1];
        response := Image(imageUrl);
    }
  }

  /** Six enhancement requests in a row that the service answers: five pass, and the sixth is refused. */
  method SixthRequestRefused(userId: nat, prompt: string, result: string) returns (responses: seq<AiResponse>)
    requires CheckEnhancePrompt(Some(prompt)).None?
    ensures |responses| == 6
    ensures forall i :: 0 <= i < 5 ==> responses[i] == Enhanced(result, 4 - i)
    ensures responses[5] == ENHANCE_RATE_LIMITED
  {
    var limiter := new RateLimiter();
    responses := [];
    while |responses| < 5
      invariant |responses| <= 5
      invariant limiter.Valid() && limiter.Count(RateLimitKey(userId)) == |responses|
      invariant forall k :: 0 <= k < |responses| ==> responses[k] == Enhanced(result, 4 - k)
    {
      var response, _ := limiter.EnhanceJob(userId, Some(prompt), Produced(result));
      responses := responses + [response];
    }
    var last, _ := limiter.EnhanceJob(userId, Some(prompt), Produced(result));
    responses := responses + [last];
  }
}
