/** The pure decisions behind replay: what an upstream answer proves about its
    effect, when an operation may be sent again, and how long a provider's
    idempotency guarantee lasts. */
module Replay {
  import opened Sums

  datatype Safety = BeforeDispatch | OnRejection | WithKey | Never

  datatype Effect = Accepted | Rejected | Unknown

  datatype Cause =
    | CauseUnknown | RequestInvalid | Capability | ModelNotFound | Auth | Permission
    | QuotaExhausted | RateLimited | Capacity | Network | ContinuityInvalid

  datatype Retry = RetryUnknown | RetryNever | RetryAfter | RetryNow

  datatype ErrorClass = Terminal | Retryable | Cooldown | AuthClass | CapabilityClass

  /** What a classifier says about an answer; `effect` may be left open. */
  datatype Outcome = Outcome(cause: Cause, effect: Option<Effect>, retry: Retry, requestScoped: bool,
    recoverByRefresh: bool)

  function InferUpstreamEffect(status: int, cause: Cause): Effect
  {
    if 200 <= status < 300 then Accepted
    else if status < 400 || status >= 500 || status == 408 || status == 409 then Unknown
    else if cause in {RequestInvalid, Capability, ModelNotFound, Auth, Permission, QuotaExhausted, RateLimited} then
      Rejected
    else Unknown
  }

  function DefaultOutcome(status: int): Outcome
  {
    var cause := if status == 401 then Auth else if status == 403 then Permission else if status == 429 then RateLimited
                 else if status >= 500 then Capacity else if status >= 400 then RequestInvalid else CauseUnknown;
    var retry := if status == 401 || status == 403 then RetryNever
                 else if status == 429 || status >= 500 then RetryAfter
                 else if status >= 400 then RetryNever else RetryUnknown;
    Outcome(cause, Some(InferUpstreamEffect(status, cause)), retry, false, false)
  }

  /** The effect the kernel acts on: the classifier's own word, or the inferred one. */
  function EffectOf(status: int, outcome: Outcome): Effect
  {
    match outcome.effect
    case Some(effect) => effect
    case None => InferUpstreamEffect(status, outcome.cause)
  }

  predicate CanReplayAfterDispatch(safety: Safety, effect: Effect)
  {
    safety == OnRejection && effect == Rejected
  }

  /** Without a richer classifier, a confirmed rejection is exactly a 4xx answer
      other than a timeout or a conflict; nothing else ever permits a replay. */
  lemma DefaultClassificationConfirmsRejection(safety: Safety, status: int)
    requires status >= 400
    ensures CanReplayAfterDispatch(safety, EffectOf(status, DefaultOutcome(status))) <==>
            safety == OnRejection && status < 500 && status != 408 && status != 409
  {
  }

  // ----- Idempotency policies ---------------------------------------------------

  datatype Policy = Policy(header: string, minRetentionSeconds: int)

  const NANOS_PER_SECOND := 1_000_000_000
  const MAX_DURATION := 0x7FFF_FFFF_FFFF_FFFF

  function LowerChar(c: char): char
  {
    if 'A' <= c <= 'Z' then c - 'A' + 'a' else c
  }

  function Lower(s: string): string
  {
    seq(|s|, i requires 0 <= i < |s| => LowerChar(s[i]))
  }

  predicate TokenChar(c: char)
  {
    'a' <= c <= 'z' || 'A' <= c <= 'Z' || '0' <= c <= '9' || c in "!#$%&'*+-.^_`|~"
  }

  predicate ValidHeaderName(name: string)
  {
    name != "" && forall i :: 0 <= i < |name| ==> TokenChar(name[i])
  }

  predicate ReservedHeader(lower: string)
  {
    lower in {"authorization", "proxy-authorization", "cookie", "set-cookie", "host", "content-length", "content-type",
              "transfer-encoding", "connection", "trailer", "upgrade", "te", "keep-alive"}
  }

  predicate ValidPolicy(p: Policy)
  {
    && ValidHeaderName(p.header)
    && !ReservedHeader(Lower(p.header))
    && 0 < p.minRetentionSeconds <= MAX_DURATION / NANOS_PER_SECOND
  }

  /** Differences of instants saturate at the widest duration. */
  function Elapsed(start: int, now: int): int
  {
    if now - start > MAX_DURATION then MAX_DURATION else now - start
  }

  predicate PermitsReplay(p: Policy, start: Option<int>, now: int)
  {
    ValidPolicy(p) && start.Some? && start.value <= now
      && Elapsed(start.value, now) < p.minRetentionSeconds * NANOS_PER_SECOND
  }

  predicate WithinRetention(p: Policy, start: int, now: int)
  {
    start <= now && now - start < p.minRetentionSeconds * NANOS_PER_SECOND
  }

  /** Neither saturation nor the bounded retention ever changes the answer: the
      product fits the duration type and the window is the exact one. */
  lemma RetentionWindowIsExact(p: Policy, start: int, now: int)
    requires ValidPolicy(p)
    ensures p.minRetentionSeconds * NANOS_PER_SECOND <= MAX_DURATION
    ensures PermitsReplay(p, Some(start), now) <==> WithinRetention(p, start, now)
  {
  }

  // ----- Header edits -----------------------------------------------------------

  type Headers = map<string, string>

  function SetHeader(headers: Headers, name: string, value: string): Headers
  {
    headers[Lower(name) := value]
  }

  function MediaType(headers: Headers): string
  {
    if "content-type" in headers then headers["content-type"] else ""
  }

  /** Stamping an idempotency key can never disturb the media framing. */
  lemma KeyHeaderKeepsMediaType(p: Policy, headers: Headers, key: string)
    requires ValidPolicy(p)
    ensures MediaType(SetHeader(headers, p.header, key)) == MediaType(headers)
    ensures SetHeader(headers, p.header, key)[Lower(p.header)] == key
  {
  }
}
