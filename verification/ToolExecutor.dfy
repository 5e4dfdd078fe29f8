/**
 * Executing one tool call: name lookup, static answers, and the webhook with its retries.  The
 * endpoint is a sequence of outcomes, one for each post that may be made; a sleep takes exactly
 * the time asked for.
 */
module ToolExecutor {
  import opened Prelude
  import opened Schemas

  const RETRYABLE_STATUS: set<int> := {429, 500, 502, 503, 504}

  /** How often to try, and the waits after a timeout or a refused connection. */
  datatype Policy = Policy(attempts: nat, baseDelay: real, backoffFactor: real)

  const DEFAULT := Policy(3, 1.0, 2.0)

  /** A Retry-After header as `float` reads it (section 10.2.3 of RFC 9110 also allows a date). */
  datatype RetryAfter = Absent | Unparseable | Seconds(seconds: real) | PlusInfinity | MinusInfinity | NotANumber

  datatype Body = NotJson | Parsed(value: Json)

  datatype Outcome =
    | Response(took: real, status: int, body: Body, retryAfter: RetryAfter)
    | Timeout(took: real)
    | ConnectError(took: real)
    | OtherException(took: real)

  datatype LastError =
    | NoAttempts
    | HttpOn(status: int, attempt: int)
    | TimeoutOn(attempt: int)
    | ConnectOn(attempt: int)

  datatype Result =
    | Answer(value: Json)
    | UnknownTool(name: string)
    | NoWebhookUrl
    | BodyNotJson(status: int)
    | BodyNotObject
    | PermanentError(status: int)
    | UnexpectedError
    | Exhausted(attempts: nat, last: LastError)

  function Max(x: real, y: real): real { if x >= y then x else y }

  function Min(x: real, y: real): real { if x <= y then x else y }

  function Pow(x: real, n: nat): real { if n == 0 then 1.0 else x * Pow(x, n - 1) }

  // ---- Names and modes ----------------------------------------------------------------------

  /** The executor's dict of tools: a later tool replaces an earlier one of the same name. */
  function NameMap(tools: seq<ToolDefinition>): map<string, ToolDefinition> {
    if tools == [] then map[]
    else NameMap(tools[..|tools| - 1])[tools[|tools| - 1].name := tools[|tools| - 1]]
  }

  function StaticAnswer(tool: ToolDefinition): Result {
    Answer(JObj(if tool.staticResponse.Some? then tool.staticResponse.value else map["status" := JStr("ok")]))
  }

  // ---- Time ---------------------------------------------------------------------------------

  function Budget(tool: ToolDefinition): real {
    tool.timeoutMs as real / 1000.0
  }

  function PerAttempt(p: Policy, budget: real): real
    requires p.attempts > 0
  {
    Max(1.0, budget / p.attempts as real)
  }

  /** min(retry_after, total_budget_s / 2), where the header may read as an infinity or as no number. */
  function RetryWait(header: RetryAfter, fallback: real, cap: real): real {
    match header
    case Absent => Min(fallback, cap)
    case Unparseable => Min(fallback, cap)
    case Seconds(x) => Min(Max(0.0, x), cap)
    case PlusInfinity => cap
    case MinusInfinity => Min(0.0, cap)
    case NotANumber => Min(0.0, cap)
  }

  function Backoff(p: Policy, attempt: nat): real
    requires attempt > 0
  {
    p.baseDelay * Pow(p.backoffFactor, attempt - 1)
  }

  /** Sleeping for a negative time takes none. */
  function Asleep(delay: real): real { Max(0.0, delay) }

  /** What a finite header asks for, cut at the cap; without one, the fallback; none for what is no time. */
  lemma RetryWaits(header: RetryAfter, fallback: real, cap: real)
    requires fallback >= 0.0 && cap >= 0.0
    ensures var wait := RetryWait(header, fallback, cap);
            && 0.0 <= wait <= cap
            && (header.Absent? || header.Unparseable? ==> wait == if fallback <= cap then fallback else cap)
            && (header.Seconds? && 0.0 <= header.seconds <= cap ==> wait == header.seconds)
            && (header.Seconds? && header.seconds > cap ==> wait == cap)
            && (header.Seconds? && header.seconds < 0.0 ==> wait == 0.0)
            && (header.PlusInfinity? ==> wait == cap)
            && (header.MinusInfinity? || header.NotANumber? ==> wait == 0.0)
  {
  }

  // ---- Outcomes ------------------------------------------------------------------------------

  predicate Retryable(o: Outcome) {
    o.Timeout? || o.ConnectError? || (o.Response? && o.status in RETRYABLE_STATUS)
  }

  /** The length of the initial run of retryable outcomes. */
  function InitialRun(outcomes: seq<Outcome>): (n: nat)
    ensures n <= |outcomes|
    ensures forall i :: 0 <= i < n ==> Retryable(outcomes[i])
    ensures n < |outcomes| ==> !Retryable(outcomes[n])
  {
    if outcomes == [] || !Retryable(outcomes[0]) then 0
    else
      var n := InitialRun(outcomes[1..]);
      assert forall i :: 0 < i <= n ==> outcomes[i] == outcomes[1..][i - 1];
      1 + n
  }

  function ErrorOn(o: Outcome, attempt: int): LastError
    requires Retryable(o)
  {
    match o
    case Response(_, status, _, _) => HttpOn(status, attempt)
    case Timeout(_) => TimeoutOn(attempt)
    case ConnectError(_) => ConnectOn(attempt)
  }

  /** The wait that follows outcome o of an attempt (from 1), if it is retried. */
  function Wait(p: Policy, budget: real, o: Outcome, attempt: nat): real
    requires 0 < attempt <= p.attempts
  {
    if !Retryable(o) || attempt == p.attempts then 0.0
    else if o.Response? then Asleep(RetryWait(o.retryAfter, PerAttempt(p, budget), budget / 2.0))
    else Asleep(Backoff(p, attempt))
  }

  /** Between two attempts: the backoff, or what the response asks for but at most half the budget. */
  lemma WaitMeans(p: Policy, budget: real, o: Outcome, attempt: nat)
    requires 0 < attempt < p.attempts && budget >= 0.0 && p.baseDelay >= 0.0 && p.backoffFactor >= 0.0
    ensures o.Timeout? || o.ConnectError? ==>
              Wait(p, budget, o, attempt) == p.baseDelay * Pow(p.backoffFactor, attempt - 1)
    ensures o.Response? && o.status == 503 && o.retryAfter.Absent? ==>
              Wait(p, budget, o, attempt) == Min(Max(1.0, budget / p.attempts as real), budget / 2.0)
    ensures o.Response? && o.status == 503 && o.retryAfter.Seconds? && 0.0 <= o.retryAfter.seconds <= budget / 2.0 ==>
              Wait(p, budget, o, attempt) == o.retryAfter.seconds
    ensures attempt == 1 ==> Pow(p.backoffFactor, attempt - 1) == 1.0
  {
    PowNonNegative(p.backoffFactor, attempt - 1);
  }

  /** Posting and sleeping of the first n attempts. */
  function TimeOf(p: Policy, budget: real, outcomes: seq<Outcome>, n: nat): real
    requires n <= |outcomes| == p.attempts
  {
    if n == 0 then 0.0
    else TimeOf(p, budget, outcomes, n - 1) + outcomes[n - 1].took + Wait(p, budget, outcomes[n - 1], n)
  }

  /** The number of posts the call makes. */
  function PostsFor(outcomes: seq<Outcome>): nat {
    if InitialRun(outcomes) == |outcomes| then |outcomes| else InitialRun(outcomes) + 1
  }

  predicate HasUrl(tool: ToolDefinition) {
    tool.webhookUrl.Some? && tool.webhookUrl.value != ""
  }

  /** The error kept of an outcome that was retried. */
  ghost predicate IsErrorOf(o: Outcome, attempt: int, error: LastError) {
    match o
    case Response(_, status, _, _) => error == HttpOn(status, attempt)
    case Timeout(_) => error == TimeoutOn(attempt)
    case ConnectError(_) => error == ConnectOn(attempt)
    case OtherException(_) => false
  }

  /** A wrapped value comes back as it was; an object that wraps none comes back itself. */
  ghost predicate AnswersObject(members: map<string, Json>, result: Result) {
    && ("result" in members ==> result == Answer(members["result"]))
    && ("result" !in members ==> result == Answer(JObj(members)))
  }

  /** What the call answers when this outcome is the first that is not retried. */
  ghost predicate Settles(o: Outcome, result: Result) {
    match o
    case Response(_, status, body, _) =>
      && (status >= 400 ==> result == PermanentError(status))
      && (status < 400 && body.NotJson? ==> result == BodyNotJson(status))
      && (status < 400 && body.Parsed? && body.value.JObj? ==> AnswersObject(body.value.members, result))
      && (status < 400 && body.Parsed? && !body.value.JObj? ==> result == BodyNotObject)
    case _ => result == UnexpectedError
  }

  /** A time-out, a refused connection, or one of five statuses. */
  ghost predicate Transient(o: Outcome) {
    match o
    case Response(_, status, _, _) => status == 429 || status == 500 || status == 502 || status == 503 || status == 504
    case Timeout(_) => true
    case ConnectError(_) => true
    case OtherException(_) => false
  }

  /**
   * The call posts until the first outcome that is not transient, which settles it, and at most
   * as often as it may; without a URL it does not post at all.
   */
  ghost predicate WebhookAnswer(p: Policy, tool: ToolDefinition, outcomes: seq<Outcome>, result: Result, posts: nat)
    requires 0 < p.attempts == |outcomes|
  {
    if tool.webhookUrl == None || tool.webhookUrl == Some("") then result == NoWebhookUrl && posts == 0
    else
      && 0 < posts <= p.attempts
      && (forall i :: 0 <= i < posts - 1 ==> Transient(outcomes[i]))
      && (!Transient(outcomes[posts - 1]) ==> Settles(outcomes[posts - 1], result))
      && (Transient(outcomes[posts - 1]) ==>
            && posts == p.attempts
            && result.Exhausted? && result.attempts == p.attempts
            && IsErrorOf(outcomes[posts - 1], posts, result.last))
  }

  lemma TransientIsRetried(o: Outcome)
    ensures Transient(o) <==> Retryable(o)
  {
  }

  /** ... so the number of posts is that of the initial run of retryable outcomes and one more, if it may. */
  lemma PostsAreTheInitialRun(p: Policy, tool: ToolDefinition, outcomes: seq<Outcome>, result: Result, posts: nat)
    requires 0 < p.attempts == |outcomes| && HasUrl(tool) && WebhookAnswer(p, tool, outcomes, result, posts)
    ensures posts == PostsFor(outcomes)
    ensures posts == if 1 + InitialRun(outcomes) <= p.attempts then 1 + InitialRun(outcomes) else p.attempts
  {
    var run := InitialRun(outcomes);
    TransientIsRetried(outcomes[posts - 1]);
    if run < posts - 1 { TransientIsRetried(outcomes[run]); }
  }

  method ExecuteWebhook(p: Policy, tool: ToolDefinition, outcomes: seq<Outcome>)
    returns (result: Result, posts: nat, clock: real)
    requires p.attempts > 0 && |outcomes| == p.attempts
    ensures WebhookAnswer(p, tool, outcomes, result, posts)
    ensures clock == TimeOf(p, tool.timeoutMs as real / 1000.0, outcomes, posts)
  {
    posts, clock := 0, 0.0;
    if tool.webhookUrl.None? || tool.webhookUrl.value == "" {
      return NoWebhookUrl, posts, clock;
    }
    var totalBudget := Budget(tool);
    var perAttempt := PerAttempt(p, totalBudget);
    var lastError := NoAttempts;
    for attempt := 1 to p.attempts + 1
      invariant posts == attempt - 1 <= InitialRun(outcomes)
      invariant clock == TimeOf(p, totalBudget, outcomes, posts)
      invariant lastError == if posts == 0 then NoAttempts else ErrorOn(outcomes[posts - 1], posts)
    {
      var o := outcomes[attempt - 1];
      posts := posts + 1;
      clock := clock + o.took;
      match o {
        case Response(_, status, body, retryAfter) =>
          if status < 400 {
            if body.NotJson? {
              return BodyNotJson(status), posts, clock;
            }
            if !body.value.JObj? {
              return BodyNotObject, posts, clock;
            }
            var data := body.value.members;
            return Answer(if "result" in data then data["result"] else body.value), posts, clock;
          }
          if status in RETRYABLE_STATUS {
            lastError := HttpOn(status, attempt);
            if attempt < p.attempts {
              clock := clock + Asleep(RetryWait(retryAfter, perAttempt, totalBudget / 2.0));
            }
            continue;
          }
          return PermanentError(status), posts, clock;
        case Timeout(_) =>
          lastError := TimeoutOn(attempt);
        case ConnectError(_) =>
          lastError := ConnectOn(attempt);
        case OtherException(_) =>
          return UnexpectedError, posts, clock;
      }
      if attempt < p.attempts {
        clock := clock + Asleep(Backoff(p, attempt));
      }
    }
    return Exhausted(p.attempts, lastError), posts, clock;
  }

  /** Only a webhook tool posts; every call answers with a result. */
  method Execute(tools: seq<ToolDefinition>, name: string, outcomes: seq<Outcome>)
    returns (result: Result, posts: nat)
    requires |outcomes| == DEFAULT.attempts
    ensures name !in NameMap(tools) ==> result == UnknownTool(name) && posts == 0
    ensures name in NameMap(tools) ==>
              var tool := NameMap(tools)[name];
              match tool.mode
              case Static =>
                && posts == 0
                && (tool.staticResponse.Some? ==> result == Answer(JObj(tool.staticResponse.value)))
                && (tool.staticResponse.None? ==> result == Answer(JObj(map["status" := JStr("ok")])))
              case Webhook => WebhookAnswer(DEFAULT, tool, outcomes, result, posts)
  {
    posts := 0;
    var byName := NameMap(tools);
    if name !in byName {
      return UnknownTool(name), 0;
    }
    match byName[name].mode {
      case Static => result := StaticAnswer(byName[name]);
      case Webhook =>
        var clock: real;
        result, posts, clock := ExecuteWebhook(DEFAULT, byName[name], outcomes);
    }
  }

  // ---- The time bound -----------------------------------------------------------------------

  /** Every post ends within the timeout given to it. */
  ghost predicate InTime(p: Policy, budget: real, outcomes: seq<Outcome>)
    requires p.attempts > 0
  {
    forall i :: 0 <= i < |outcomes| ==> 0.0 <= outcomes[i].took <= PerAttempt(p, budget)
  }

  ghost predicate Sane(p: Policy) {
    p.attempts > 0 && p.baseDelay >= 0.0 && p.backoffFactor >= 0.0
  }

  /** The longest waits after the first n attempts: the larger of backoff and half the budget. */
  ghost function WaitBound(p: Policy, budget: real, n: nat): real {
    if n == 0 then 0.0 else WaitBound(p, budget, n - 1) + Max(Backoff(p, n), budget / 2.0)
  }

  ghost function Bound(p: Policy, budget: real): real
    requires p.attempts > 0
  {
    Max(p.attempts as real, budget) + WaitBound(p, budget, p.attempts - 1)
  }

  lemma {:induction false} PowNonNegative(x: real, n: nat)
    requires x >= 0.0
    ensures Pow(x, n) >= 0.0
  {
    if n > 0 { PowNonNegative(x, n - 1); }
  }

  lemma BackoffNonNegative(p: Policy, attempt: nat)
    requires Sane(p) && attempt > 0
    ensures Backoff(p, attempt) >= 0.0
  {
    PowNonNegative(p.backoffFactor, attempt - 1);
  }

  /** n equal parts of length x, end to end. */
  ghost function Times(n: nat, x: real): real {
    if n == 0 then 0.0 else Times(n - 1, x) + x
  }

  lemma {:induction false} TimesIsProduct(n: nat, x: real)
    ensures Times(n, x) == n as real * x
  {
    if n > 0 {
      TimesIsProduct(n - 1, x);
      var m := (n - 1) as real;
      assert (m + 1.0) * x == m * x + x;
      assert n as real == m + 1.0;
    }
  }

  lemma AllPosts(p: Policy, budget: real)
    requires p.attempts > 0
    ensures Times(p.attempts, PerAttempt(p, budget)) == Max(p.attempts as real, budget)
  {
    var n := p.attempts as real;
    TimesIsProduct(p.attempts, PerAttempt(p, budget));
    PartsOf(n, budget);
  }

  lemma PartsOf(n: real, budget: real)
    requires n >= 1.0
    ensures n * Max(1.0, budget / n) == Max(n, budget)
  {
    var part := budget / n;
    assert n * part == budget;
    if part > 1.0 { assert n * part > n; } else { assert n * part <= n; }
  }

  lemma WaitWithin(p: Policy, budget: real, o: Outcome, attempt: nat)
    requires Sane(p) && 0 < attempt <= p.attempts
    ensures 0.0 <= Wait(p, budget, o, attempt)
    ensures Wait(p, budget, o, attempt) <= if attempt < p.attempts then Max(Backoff(p, attempt), budget / 2.0) else 0.0
  {
    BackoffNonNegative(p, attempt);
  }

  lemma {:induction false} TimeWithin(p: Policy, budget: real, outcomes: seq<Outcome>, n: nat)
    requires Sane(p) && n <= |outcomes| == p.attempts && InTime(p, budget, outcomes)
    ensures TimeOf(p, budget, outcomes, n)
            <= Times(n, PerAttempt(p, budget)) + WaitBound(p, budget, if n < p.attempts then n else n - 1)
  {
    if n > 0 {
      TimeWithin(p, budget, outcomes, n - 1);
      WaitWithin(p, budget, outcomes[n - 1], n);
    }
  }

  lemma {:induction false} TimeGrows(p: Policy, budget: real, outcomes: seq<Outcome>, n: nat, m: nat)
    requires Sane(p) && n <= m <= |outcomes| == p.attempts && InTime(p, budget, outcomes)
    ensures TimeOf(p, budget, outcomes, n) <= TimeOf(p, budget, outcomes, m)
  {
    if n < m { TimeGrows(p, budget, outcomes, n, m - 1); }
  }

  /**
   * If each post ends within its timeout, posting and sleeping take at most
   * max(N, T) + sum of max(base * factor^(i-1), T/2) for the N - 1 waits.
   */
  lemma {:induction false} RetryTimeBound(p: Policy, budget: real, outcomes: seq<Outcome>)
    requires Sane(p) && |outcomes| == p.attempts && InTime(p, budget, outcomes)
    ensures TimeOf(p, budget, outcomes, PostsFor(outcomes)) <= Bound(p, budget)
  {
    TimeWithin(p, budget, outcomes, p.attempts);
    TimeGrows(p, budget, outcomes, PostsFor(outcomes), p.attempts);
    AllPosts(p, budget);
  }

  lemma DefaultBound(budget: real)
    ensures Bound(DEFAULT, budget) == Max(3.0, budget) + Max(1.0, budget / 2.0) + Max(2.0, budget / 2.0)
  {
    assert Backoff(DEFAULT, 1) == 1.0;
    assert Pow(2.0, 1) == 2.0 * Pow(2.0, 0);
    assert Backoff(DEFAULT, 2) == 2.0;
    assert WaitBound(DEFAULT, budget, 2) == WaitBound(DEFAULT, budget, 1) + Max(2.0, budget / 2.0);
    assert WaitBound(DEFAULT, budget, 1) == WaitBound(DEFAULT, budget, 0) + Max(1.0, budget / 2.0);
  }

  /** The slowest endpoint: each answer at the last moment, and the longer of the two waits. */
  ghost function Slowest(p: Policy, budget: real): (outcomes: seq<Outcome>)
    requires Sane(p)
  {
    seq(p.attempts, i requires 0 <= i < p.attempts =>
      if Backoff(p, i + 1) >= budget / 2.0 then Timeout(PerAttempt(p, budget))
      else Response(PerAttempt(p, budget), 503, NotJson, Seconds(budget / 2.0)))
  }

  lemma {:induction false} SlowestTime(p: Policy, budget: real, n: nat)
    requires Sane(p) && n <= p.attempts
    ensures TimeOf(p, budget, Slowest(p, budget), n)
            == Times(n, PerAttempt(p, budget)) + WaitBound(p, budget, if n < p.attempts then n else n - 1)
  {
    if n > 0 {
      SlowestTime(p, budget, n - 1);
      BackoffNonNegative(p, n);
    }
  }

  /** The bound is attained, for every policy and every budget. */
  lemma {:induction false} RetryBoundIsTight(p: Policy, budget: real)
    requires Sane(p)
    ensures var outcomes := Slowest(p, budget);
            InTime(p, budget, outcomes) && TimeOf(p, budget, outcomes, PostsFor(outcomes)) == Bound(p, budget)
  {
    SlowestTime(p, budget, p.attempts);
    AllPosts(p, budget);
    assert InitialRun(Slowest(p, budget)) == p.attempts;
  }

  /** Every endpoint that answers within the per-attempt timeout is done within the budget. */
  ghost predicate BudgetKept(p: Policy, budget: real)
    requires p.attempts > 0
  {
    forall outcomes :: |outcomes| == p.attempts && InTime(p, budget, outcomes) ==>
      TimeOf(p, budget, outcomes, PostsFor(outcomes)) <= budget
  }

  lemma {:induction false} WaitBoundPositive(p: Policy, budget: real, n: nat)
    requires Sane(p)
    ensures WaitBound(p, budget, n) >= 0.0
    ensures budget > 0.0 && n > 0 ==> WaitBound(p, budget, n) > 0.0
  {
    if n > 0 {
      WaitBoundPositive(p, budget, n - 1);
      BackoffNonNegative(p, n);
    }
  }

  /**
   * `timeout_ms` bounds the whole call exactly when there are no retries and the budget is a
   * second or more; so with three attempts it never does.
   */
  lemma BudgetKeptIff(p: Policy, budget: real)
    requires Sane(p)
    ensures BudgetKept(p, budget) <==> p.attempts == 1 && budget >= 1.0
  {
    if p.attempts == 1 && budget >= 1.0 {
      forall outcomes | |outcomes| == p.attempts && InTime(p, budget, outcomes)
        ensures TimeOf(p, budget, outcomes, PostsFor(outcomes)) <= budget
      {
        RetryTimeBound(p, budget, outcomes);
      }
    } else {
      RetryBoundIsTight(p, budget);
      WaitBoundPositive(p, budget, p.attempts - 1);
      assert Bound(p, budget) > budget;
    }
  }
}
