/**
WithRetry: a loop of attempts under a backoff schedule, driving the circuit breaker. Other goroutines may
call the breaker at any time; `Env` says what they do, when the clock is read, how long each jittered
wait is, whether the context is cancelled during it, and how each attempt ends.
*/
module Retry {
  import opened CircuitBreaker

  datatype Policy = Policy(maxAttempts: int, baseDelay: int, maxDelay: int)

  datatype Outcome = NilError | Error(category: Category, throttling: bool)

  datatype Env = Env(
    before: int -> seq<Call>,    // others' breaker calls before the n-th Allow
    during: int -> seq<Call>,    // and between the n-th attempt and the record, if there is one
    askedAt: int -> Time, recordedAt: int -> Time, jitter: int -> int, interrupted: int -> bool,
    outcome: int -> Outcome)

  /** What one call does, in order. */
  datatype Action =
    | Ask(now: Time, granted: bool)
    | Wait(delay: int)
    | Attempt(isRetry: bool, outcome: Outcome)
    | RecordOk
    | RecordBad(now: Time, category: Category)

  datatype Result = ReturnedNil | CircuitOpen | WaitInterrupted | AttemptFailed(category: Category) | NoAttempts

  /** One call of WithRetry, and the breaker it leaves. */
  datatype Operation = Operation(actions: seq<Action>, result: Result, hosts: map<Host, HostState>)

  type Hosts = map<Host, HostState>

  predicate IsRetryable(category: Category) {
    category == Network || category == Timeout || category == Unknown
  }

  // ----- backoff -----

  function Pow2(n: nat): int {
    if n == 0 then 1 else 2 * Pow2(n - 1)
  }

  /** The longest pause number k may take. */
  function DelayCap(policy: Policy, k: int, throttled: bool): int
    requires k >= 1
  {
    var doubled := if k > 1 then policy.baseDelay * Pow2(k - 1) else policy.baseDelay;
    var scheduled := doubled * (if throttled then 2 else 1);
    var capped := if scheduled > policy.maxDelay then policy.maxDelay else scheduled;
    if capped <= 0 then 0 else capped
  }

  /** Full jitter: any delay up to the cap. */
  function BackoffDelay(policy: Policy, k: int, throttled: bool, jitter: int): int
    requires k >= 1
  {
    jitter % (DelayCap(policy, k, throttled) + 1)
  }

  // ----- one call -----

  function ApplyAll(hosts: Hosts, calls: seq<Call>): Hosts {
    if calls == [] then hosts else Apply(ApplyAll(hosts, calls[..|calls| - 1]), calls[|calls| - 1])
  }

  function Prepend(actions: seq<Action>, o: Operation): Operation {
    o.(actions := actions + o.actions)
  }

  function Pause(policy: Policy, env: Env, n: int, throttled: bool): seq<Action>
    requires n >= 1
  {
    if n > 1 then [Wait(BackoffDelay(policy, n - 1, throttled, env.jitter(n)))] else []
  }

  /** Attempt n, with what precedes it once the breaker has granted it. */
  function Tried(policy: Policy, env: Env, n: int, throttled: bool): seq<Action>
    requires n >= 1
  {
    [Ask(env.askedAt(n), true)] + Pause(policy, env, n, throttled) + [Attempt(n > 1, env.outcome(n))]
  }

  predicate IsInterrupted(env: Env, n: int) {
    n > 1 && env.interrupted(n)
  }

  /** The loop goes on after attempt n. */
  predicate Continues(policy: Policy, env: Env, n: int) {
    && !IsInterrupted(env, n)
    && env.outcome(n).Error? && IsRetryable(env.outcome(n).category) && n != policy.maxAttempts
  }

  /** The call ends with its n-th, granted, iteration. */
  function Ends(policy: Policy, env: Env, host: Host, going: Hosts, n: int, throttled: bool): Operation
    requires n >= 1
  {
    if IsInterrupted(env, n) then
      Operation([Ask(env.askedAt(n), true)] + Pause(policy, env, n, throttled), WaitInterrupted, going)
    else
      var tried := Tried(policy, env, n, throttled);
      var after := ApplyAll(going, env.during(n));
      match env.outcome(n)
      case NilError => Operation(tried + [RecordOk], ReturnedNil, Apply(after, Succeeded(host)))
      case Error(category, _) =>
        if category == Cancelled then Operation(tried, AttemptFailed(category), after)
        else
          Operation(tried + [RecordBad(env.recordedAt(n), category)], AttemptFailed(category),
                    Apply(after, Failed(host, env.recordedAt(n), category)))
  }

  /** The loop from attempt n on. */
  function Operate(policy: Policy, env: Env, host: Host, hosts: Hosts, n: int, throttled: bool): Operation
    requires n >= 1
    decreases policy.maxAttempts - n
  {
    if n > policy.maxAttempts then Operation([], NoAttempts, hosts)
    else
      var asked := ApplyAll(hosts, env.before(n));
      var granted := Allows(StateOf(asked, host), env.askedAt(n));
      var going := Apply(asked, Asked(host, env.askedAt(n), granted));
      if !granted then Operation([Ask(env.askedAt(n), false)], CircuitOpen, going)
      else if !Continues(policy, env, n) then Ends(policy, env, host, going, n, throttled)
      else
        Prepend(Tried(policy, env, n, throttled),
                Operate(policy, env, host, ApplyAll(going, env.during(n)), n + 1, env.outcome(n).throttling))
  }

  function WithRetrySpec(policy: Policy, env: Env, host: Host, hosts: Hosts): Operation {
    Operate(policy, env, host, hosts, 1, false)
  }

  // ----- accounting, whatever the others do -----

  function Attempts(actions: seq<Action>): nat {
    if actions == [] then 0 else Attempts(actions[1..]) + (if actions[0].Attempt? then 1 else 0)
  }

  function Grants(actions: seq<Action>): nat {
    if actions == [] then 0 else Grants(actions[1..]) + (if actions[0].Ask? && actions[0].granted then 1 else 0)
  }

  /** What the call reports to the breaker. */
  function Records(actions: seq<Action>): seq<Action> {
    if actions == [] then []
    else (if actions[0].RecordOk? || actions[0].RecordBad? then [actions[0]] else []) + Records(actions[1..])
  }

  function Waited(actions: seq<Action>): int {
    if actions == [] then 0 else Waited(actions[1..]) + (if actions[0].Wait? then actions[0].delay else 0)
  }

  lemma {:induction false} CountsAdd(a: seq<Action>, b: seq<Action>)
    ensures Attempts(a + b) == Attempts(a) + Attempts(b)
    ensures Grants(a + b) == Grants(a) + Grants(b)
    ensures Records(a + b) == Records(a) + Records(b)
    ensures Waited(a + b) == Waited(a) + Waited(b)
  {
    if a == [] {
      assert a + b == b;
    } else {
      assert (a + b)[1..] == a[1..] + b && (a + b)[0] == a[0];
      CountsAdd(a[1..], b);
      RecordsOfFirst(a);
      RecordsOfFirst(a + b);
    }
  }

  lemma RecordsOfFirst(a: seq<Action>)
    requires a != []
    ensures Records(a) == (if a[0].RecordOk? || a[0].RecordBad? then [a[0]] else []) + Records(a[1..])
  {
  }

  /** One record at most: success exactly when the call returns nil, the last error's category when it
      gives up, and nothing on cancellation or refusal. */
  predicate RecordsResult(o: Operation) {
    match o.result
    case ReturnedNil => Records(o.actions) == [RecordOk]
    case AttemptFailed(category) =>
      if category == Cancelled then Records(o.actions) == []
      else |Records(o.actions)| == 1 && Records(o.actions)[0].RecordBad? && Records(o.actions)[0].category == category
    case _ => Records(o.actions) == []
  }

  /** The pauses still possible from attempt n on. */
  function PausesLeft(policy: Policy, n: int): int {
    var left := policy.maxAttempts - (if n > 1 then n else 2) + 1;
    if left > 0 then left else 0
  }

  lemma DelayWithinCap(policy: Policy, k: int, throttled: bool, jitter: int)
    requires k >= 1 && policy.maxDelay >= 0
    ensures 0 <= BackoffDelay(policy, k, throttled, jitter) <= DelayCap(policy, k, throttled) <= policy.maxDelay
  {
  }

  /** The schedule doubles from pause to pause until it reaches the maximum, and a throttled pause is one
      step ahead of its schedule. */
  lemma DelayCapDoubles(policy: Policy, k: int)
    requires k >= 1 && policy.baseDelay >= 0 && policy.maxDelay >= 0
    ensures DelayCap(policy, 1, false) ==
              if policy.baseDelay < policy.maxDelay then policy.baseDelay else policy.maxDelay
    ensures DelayCap(policy, k + 1, false)
         == if 2 * DelayCap(policy, k, false) < policy.maxDelay then 2 * DelayCap(policy, k, false) else policy.maxDelay
    ensures DelayCap(policy, k, true) == DelayCap(policy, k + 1, false)
  {
    var unit := Pow2(k - 1);
    assert Pow2(k) == 2 * unit;
    Doubled(policy.baseDelay, unit);
  }

  lemma Doubled(a: int, b: int)
    ensures a * (2 * b) == 2 * (a * b)
    ensures a >= 0 && b >= 0 ==> a * b >= 0
  {
  }

  lemma PauseCounts(policy: Policy, env: Env, n: int, throttled: bool)
    requires n >= 1 && policy.maxDelay >= 0
    ensures var a := [Ask(env.askedAt(n), true)] + Pause(policy, env, n, throttled);
      && Attempts(a) == 0 && Grants(a) == 1 && Records(a) == []
      && 0 <= Waited(a) <= if n > 1 then policy.maxDelay else 0
  {
    CountsAdd([Ask(env.askedAt(n), true)], Pause(policy, env, n, throttled));
    if n > 1 {
      DelayWithinCap(policy, n - 1, throttled, env.jitter(n));
    }
  }

  lemma TriedCounts(policy: Policy, env: Env, n: int, throttled: bool)
    requires n >= 1 && policy.maxDelay >= 0
    ensures var a := Tried(policy, env, n, throttled);
      && Attempts(a) == 1 && Grants(a) == 1 && Records(a) == []
      && 0 <= Waited(a) <= if n > 1 then policy.maxDelay else 0
  {
    PauseCounts(policy, env, n, throttled);
    CountsAdd([Ask(env.askedAt(n), true)] + Pause(policy, env, n, throttled), [Attempt(n > 1, env.outcome(n))]);
  }

  /** The accounting of a call from attempt n on. */
  predicate Accounts(policy: Policy, o: Operation, n: int) {
    && Attempts(o.actions) <= (if n <= policy.maxAttempts then policy.maxAttempts - n + 1 else 0)
    && Grants(o.actions) == Attempts(o.actions) + (if o.result.WaitInterrupted? then 1 else 0)
    && 0 <= Waited(o.actions) <= PausesLeft(policy, n) * policy.maxDelay
    && RecordsResult(o)
  }

  lemma EndsAccounts(policy: Policy, env: Env, host: Host, going: Hosts, n: int, throttled: bool)
    requires 1 <= n <= policy.maxAttempts && policy.maxDelay >= 0
    ensures Accounts(policy, Ends(policy, env, host, going, n, throttled), n)
  {
    if IsInterrupted(env, n) {
      PauseCounts(policy, env, n, throttled);
    } else {
      var tried := Tried(policy, env, n, throttled);
      TriedCounts(policy, env, n, throttled);
      CountsAdd(tried, [RecordOk]);
      if env.outcome(n).Error? {
        CountsAdd(tried, [RecordBad(env.recordedAt(n), env.outcome(n).category)]);
      }
    }
    Multiples(policy, n);
  }

  lemma Multiples(policy: Policy, n: int)
    requires 1 <= n <= policy.maxAttempts && policy.maxDelay >= 0
    ensures PausesLeft(policy, n + 1) * policy.maxDelay >= 0
    ensures PausesLeft(policy, n) * policy.maxDelay
         == PausesLeft(policy, n + 1) * policy.maxDelay + if n > 1 then policy.maxDelay else 0
  {
  }

  lemma {:induction false} OperateAccounts(policy: Policy, env: Env, host: Host, hosts: Hosts, n: int, throttled: bool)
    requires n >= 1 && policy.maxDelay >= 0
    ensures Accounts(policy, Operate(policy, env, host, hosts, n, throttled), n)
    decreases policy.maxAttempts - n
  {
    if n <= policy.maxAttempts {
      var asked := ApplyAll(hosts, env.before(n));
      Multiples(policy, n);
      if Allows(StateOf(asked, host), env.askedAt(n)) {
        var going := Apply(asked, Asked(host, env.askedAt(n), true));
        if Continues(policy, env, n) {
          var after := ApplyAll(going, env.during(n));
          OperateAccounts(policy, env, host, after, n + 1, env.outcome(n).throttling);
          TriedCounts(policy, env, n, throttled);
          CountsAdd(Tried(policy, env, n, throttled),
                    Operate(policy, env, host, after, n + 1, env.outcome(n).throttling).actions);
        } else {
          EndsAccounts(policy, env, host, going, n, throttled);
        }
      }
    }
  }

  /** Every call of WithRetry, whatever other goroutines do to the breaker meanwhile: at most MaxAttempts
      attempts, each granted; at most one record, and the right one; and at most MaxAttempts-1 pauses of
      at most MaxDelay. */
  lemma RetryAccounting(policy: Policy, env: Env, host: Host, hosts: Hosts)
    requires policy.maxDelay >= 0
    ensures var o := WithRetrySpec(policy, env, host, hosts);
      && Attempts(o.actions) <= (if policy.maxAttempts > 0 then policy.maxAttempts else 0)
      && Grants(o.actions) == Attempts(o.actions) + (if o.result.WaitInterrupted? then 1 else 0)
      && 0 <= Waited(o.actions) <= (if policy.maxAttempts > 0 then policy.maxAttempts - 1 else 0) * policy.maxDelay
      && RecordsResult(o)
  {
    OperateAccounts(policy, env, host, hosts, 1, false);
  }
}
