/** WithRetry as the loop it is, over a breaker that other goroutines use too. */
module RetryLoop {
  import opened CircuitBreaker
  import opened Retry
  import B = CircuitBreaker

  /** The other goroutines' calls; their Allow answers are theirs. */
  method Interfere(breaker: B.CircuitBreaker, calls: seq<Call>)
    requires breaker.Valid()
    modifies breaker
    ensures breaker.Valid() && breaker.hosts == ApplyAll(old(breaker.hosts), calls)
  {
    for i := 0 to |calls|
      invariant breaker.Valid() && breaker.hosts == ApplyAll(old(breaker.hosts), calls[..i])
    {
      assert calls[..i + 1][..i] == calls[..i];
      match calls[i] {
        case Asked(host, now, _) => var _ := breaker.Allow(host, now);
        case Succeeded(host) => breaker.RecordSuccess(host);
        case Failed(host, now, category) => breaker.RecordFailure(host, now, category);
      }
    }
    assert calls[..|calls|] == calls;
  }

  /** What follows attempt n: a record and the end, the end alone, or another iteration. */
  method Settle(breaker: B.CircuitBreaker, policy: Policy, host: Host, env: Env, n: int, ghost throttled: bool)
    returns (ended: bool, result: Result, record: seq<Action>)
    requires breaker.Valid() && n >= 1 && !IsInterrupted(env, n)
    modifies breaker
    ensures breaker.Valid() && ended == !Continues(policy, env, n)
    ensures !ended ==> record == [] && breaker.hosts == ApplyAll(old(breaker.hosts), env.during(n))
    ensures ended ==>
      Ends(policy, env, host, old(breaker.hosts), n, throttled)
      == Operation(Tried(policy, env, n, throttled) + record, result, breaker.hosts)
  {
    Interfere(breaker, env.during(n));
    var outcome := env.outcome(n);
    ended, result, record := true, ReturnedNil, [];
    if outcome.NilError? {
      breaker.RecordSuccess(host);
      record := [RecordOk];
    } else {
      result := AttemptFailed(outcome.category);
      if outcome.category != Cancelled {
        if !IsRetryable(outcome.category) || n == policy.maxAttempts {
          breaker.RecordFailure(host, env.recordedAt(n), outcome.category);
          record := [RecordBad(env.recordedAt(n), outcome.category)];
        } else {
          ended := false;
        }
      }
    }
  }

  /** The n-th Allow. */
  method AskBreaker(breaker: B.CircuitBreaker, host: Host, env: Env, n: int) returns (granted: bool)
    requires breaker.Valid()
    modifies breaker
    ensures breaker.Valid()
    ensures var asked := ApplyAll(old(breaker.hosts), env.before(n));
      && granted == Allows(StateOf(asked, host), env.askedAt(n))
      && breaker.hosts == Apply(asked, Asked(host, env.askedAt(n), granted))
  {
    Interfere(breaker, env.before(n));
    granted := breaker.Allow(host, env.askedAt(n));
  }

  /** An iteration up to its attempt: Allow, and the pause of a retry. */
  method Begin(breaker: B.CircuitBreaker, policy: Policy, host: Host, env: Env, n: int, throttled: bool)
    returns (stopped: bool, result: Result, actions: seq<Action>)
    requires breaker.Valid() && 1 <= n <= policy.maxAttempts
    modifies breaker
    ensures breaker.Valid()
    ensures stopped ==>
      Operate(policy, env, host, old(breaker.hosts), n, throttled) == Operation(actions, result, breaker.hosts)
    ensures !stopped ==>
      && !IsInterrupted(env, n)
      && actions == [Ask(env.askedAt(n), true)] + Pause(policy, env, n, throttled)
      && var asked := ApplyAll(old(breaker.hosts), env.before(n));
         && Allows(StateOf(asked, host), env.askedAt(n))
         && breaker.hosts == Apply(asked, Asked(host, env.askedAt(n), true))
  {
    var granted := AskBreaker(breaker, host, env, n);
    actions, result, stopped := [Ask(env.askedAt(n), granted)], CircuitOpen, !granted;
    if granted && n > 1 {
      actions := actions + [Wait(BackoffDelay(policy, n - 1, throttled, env.jitter(n)))];
      result, stopped := WaitInterrupted, env.interrupted(n);
    }
  }

  /** One iteration of the loop. */
  method Iterate(breaker: B.CircuitBreaker, policy: Policy, host: Host, env: Env, n: int, throttled: bool)
    returns (ended: bool, result: Result, actions: seq<Action>)
    requires breaker.Valid() && 1 <= n <= policy.maxAttempts
    modifies breaker
    ensures breaker.Valid()
    ensures ended ==>
      Operate(policy, env, host, old(breaker.hosts), n, throttled) == Operation(actions, result, breaker.hosts)
    ensures !ended ==>
      && env.outcome(n).Error?
      && Operate(policy, env, host, old(breaker.hosts), n, throttled)
         == Prepend(actions, Operate(policy, env, host, breaker.hosts, n + 1, env.outcome(n).throttling))
  {
    ended, result, actions := Begin(breaker, policy, host, env, n, throttled);
    if !ended {
      Granted(policy, env, host, breaker.hosts, old(breaker.hosts), n, throttled);
      actions := actions + [Attempt(n > 1, env.outcome(n))];
      var record: seq<Action>;
      ended, result, record := Settle(breaker, policy, host, env, n, throttled);
      if ended {
        actions := actions + record;
      }
    }
  }

  lemma Granted(policy: Policy, env: Env, host: Host, going: Hosts, hosts: Hosts, n: int, throttled: bool)
    requires 1 <= n <= policy.maxAttempts
    requires var asked := ApplyAll(hosts, env.before(n));
      Allows(StateOf(asked, host), env.askedAt(n)) && going == Apply(asked, Asked(host, env.askedAt(n), true))
    ensures Operate(policy, env, host, hosts, n, throttled)
         == if Continues(policy, env, n)
            then Prepend(Tried(policy, env, n, throttled),
                         Operate(policy, env, host, ApplyAll(going, env.during(n)), n + 1, env.outcome(n).throttling))
            else Ends(policy, env, host, going, n, throttled)
  {
  }

  /** Every call is one of the operations the accounting is about. */
  method WithRetry(breaker: B.CircuitBreaker, policy: Policy, host: Host, env: Env)
    returns (result: Result, actions: seq<Action>)
    requires breaker.Valid()
    modifies breaker
    ensures breaker.Valid()
    ensures Operation(actions, result, breaker.hosts) == WithRetrySpec(policy, env, host, old(breaker.hosts))
  {
    var throttled := false;
    var n := 1;
    actions := [];
    while n <= policy.maxAttempts
      invariant n >= 1 && breaker.Valid()
      invariant WithRetrySpec(policy, env, host, old(breaker.hosts))
             == Prepend(actions, Operate(policy, env, host, breaker.hosts, n, throttled))
    {
      ghost var rest := Operate(policy, env, host, breaker.hosts, n, throttled);
      var ended, outcome, done := Iterate(breaker, policy, host, env, n, throttled);
      ghost var before := actions;
      actions := actions + done;
      if ended {
        return outcome, actions;
      }
      throttled := env.outcome(n).throttling;
      PrependTwice(before, done, Operate(policy, env, host, breaker.hosts, n + 1, throttled));
      n := n + 1;
    }
    result := NoAttempts;
    assert actions + [] == actions;
  }

  lemma PrependTwice(a: seq<Action>, b: seq<Action>, o: Operation)
    ensures Prepend(a, Prepend(b, o)) == Prepend(a + b, o)
  {
    assert a + (b + o.actions) == (a + b) + o.actions;
  }
}
