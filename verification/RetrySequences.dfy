/**
Calls of WithRetry one after another against one host: how many failed operations open its breaker, and
what becomes of the trial request after the cooldown.
*/
module RetrySequences {
  import opened CircuitBreaker
  import opened Retry

  datatype Invocation = Invocation(policy: Policy, env: Env)

  predicate NoCallsFor(calls: seq<Call>, host: Host) {
    forall i :: 0 <= i < |calls| ==> calls[i].host != host
  }

  /** Nobody else calls the breaker for this host meanwhile. */
  ghost predicate Alone(env: Env, host: Host) {
    forall n: int :: NoCallsFor(env.before(n), host) && NoCallsFor(env.during(n), host)
  }

  lemma {:induction false} OthersKeepState(hosts: Hosts, calls: seq<Call>, host: Host)
    requires NoCallsFor(calls, host)
    ensures StateOf(ApplyAll(hosts, calls), host) == StateOf(hosts, host)
  {
    if calls != [] {
      OthersKeepState(hosts, calls[..|calls| - 1], host);
    }
  }

  lemma ApplyIsLocal(hosts: Hosts, host: Host, now: Time, granted: bool, category: Category)
    requires StateOf(hosts, host) == NO_FAILURES || host in hosts
    ensures StateOf(Apply(hosts, Asked(host, now, granted)), host) == AfterAllow(StateOf(hosts, host), now)
    ensures StateOf(Apply(hosts, Succeeded(host)), host) == AfterSuccess(StateOf(hosts, host))
    ensures StateOf(Apply(hosts, Failed(host, now, category)), host)
         == AfterFailure(StateOf(hosts, host), now, category)
  {
  }

  /** One granted iteration, up to its attempt's answer. */
  function Going(env: Env, host: Host, hosts: Hosts, n: int): Hosts {
    Apply(ApplyAll(hosts, env.before(n)), Asked(host, env.askedAt(n), true))
  }

  lemma GoingOn(env: Env, host: Host, hosts: Hosts, n: int)
    requires Alone(env, host)
    ensures StateOf(ApplyAll(hosts, env.before(n)), host) == StateOf(hosts, host)
    ensures StateOf(Going(env, host, hosts, n), host) == AfterAllow(StateOf(hosts, host), env.askedAt(n))
    ensures StateOf(ApplyAll(Going(env, host, hosts, n), env.during(n)), host)
         == StateOf(Going(env, host, hosts, n), host)
  {
    OthersKeepState(hosts, env.before(n), host);
    OthersKeepState(Going(env, host, hosts, n), env.during(n), host);
  }

  // ----- one call -----

  /** What the call's record makes of the host's state. */
  function Recorded(s: HostState, o: Operation): HostState {
    if Records(o.actions) == [] then s
    else
      match Records(o.actions)[0]
      case RecordOk => AfterSuccess(s)
      case RecordBad(now, category) => AfterFailure(s, now, category)
      case _ => s
  }

  predicate Counts(result: Result) {
    result.AttemptFailed? && IsOutage(result.category)
  }

  lemma EndsFrom(policy: Policy, env: Env, host: Host, going: Hosts, n: int, throttled: bool)
    requires n >= 1 && policy.maxDelay >= 0 && Alone(env, host)
    ensures var o := Ends(policy, env, host, going, n, throttled);
      && StateOf(o.hosts, host) == Recorded(StateOf(going, host), o)
      && Attempts(o.actions) == if IsInterrupted(env, n) then 0 else 1
  {
    OthersKeepState(going, env.during(n), host);
    if IsInterrupted(env, n) {
      PauseCounts(policy, env, n, throttled);
    } else {
      var tried, after := Tried(policy, env, n, throttled), ApplyAll(going, env.during(n));
      TriedCounts(policy, env, n, throttled);
      CountsAdd(tried, [RecordOk]);
      ApplyIsLocal(after, host, env.recordedAt(n), true, Unknown);
      if env.outcome(n).Error? {
        CountsAdd(tried, [RecordBad(env.recordedAt(n), env.outcome(n).category)]);
        ApplyIsLocal(after, host, env.recordedAt(n), true, env.outcome(n).category);
      }
    }
  }

  /** A failed attempt before the last records nothing. */
  lemma TriedRecordsNothing(policy: Policy, env: Env, n: int, throttled: bool, s: HostState, rest: Operation)
    requires n >= 1 && policy.maxDelay >= 0 && Continues(policy, env, n)
    ensures Recorded(s, Prepend(Tried(policy, env, n, throttled), rest)) == Recorded(s, rest)
  {
    TriedCounts(policy, env, n, throttled);
    CountsAdd(Tried(policy, env, n, throttled), rest.actions);
  }

  /** Against a closed breaker every attempt is granted, and only the record changes the host's state:
      one operation counts once, however many of its attempts failed. */
  lemma {:induction false} ClosedHost(policy: Policy, env: Env, host: Host, hosts: Hosts, n: int, throttled: bool)
    requires n >= 1 && policy.maxDelay >= 0 && Alone(env, host) && StateOf(hosts, host).status == Closed
    ensures var o := Operate(policy, env, host, hosts, n, throttled);
      && StateOf(o.hosts, host) == Recorded(StateOf(hosts, host), o)
      && o.result != CircuitOpen
    decreases policy.maxAttempts - n
  {
    if n <= policy.maxAttempts {
      GoingOn(env, host, hosts, n);
      if Continues(policy, env, n) {
        var after := ApplyAll(Going(env, host, hosts, n), env.during(n));
        ClosedHost(policy, env, host, after, n + 1, env.outcome(n).throttling);
        var rest := Operate(policy, env, host, after, n + 1, env.outcome(n).throttling);
        TriedRecordsNothing(policy, env, n, throttled, StateOf(hosts, host), rest);
        assert Operate(policy, env, host, hosts, n, throttled) == Prepend(Tried(policy, env, n, throttled), rest);
      } else {
        EndsFrom(policy, env, host, Going(env, host, hosts, n), n, throttled);
      }
    }
  }

  /** What one operation does to a closed breaker, by its result alone. */
  lemma ClosedOperation(policy: Policy, env: Env, host: Host, hosts: Hosts)
    requires policy.maxDelay >= 0 && Alone(env, host) && StateOf(hosts, host).status == Closed
    ensures var o, s := WithRetrySpec(policy, env, host, hosts), StateOf(hosts, host);
      && o.result != CircuitOpen
      && (o.result == ReturnedNil ==> StateOf(o.hosts, host) == AfterSuccess(s))
      && (Counts(o.result) ==>
            && |Records(o.actions)| == 1 && Records(o.actions)[0].RecordBad?
            && StateOf(o.hosts, host) == AfterFailure(s, Records(o.actions)[0].now, o.result.category))
      && (o.result != ReturnedNil && !Counts(o.result) ==> StateOf(o.hosts, host) == s)
  {
    ClosedHost(policy, env, host, hosts, 1, false);
    RetryAccounting(policy, env, host, hosts);
  }

  /** The errors worth another attempt. */
  predicate MayPass(category: Category) {
    category in {Network, Timeout, Unknown}
  }

  /** Attempt n is the last: it answers nil, fails for good, or is the last one allowed. */
  predicate IsLast(policy: Policy, env: Env, n: int) {
    env.outcome(n).NilError? || !MayPass(env.outcome(n).category) || n == policy.maxAttempts
  }

  lemma {:induction false} AttemptsFrom(
    policy: Policy, env: Env, host: Host, hosts: Hosts, n: int, throttled: bool, k: int)
    requires 1 <= n <= k <= policy.maxAttempts && policy.maxDelay >= 0 && Alone(env, host)
    requires StateOf(hosts, host).status == Closed
    requires IsLast(policy, env, k) && forall i :: n <= i < k ==> !IsLast(policy, env, i)
    requires forall i :: n <= i <= k ==> !IsInterrupted(env, i)
    ensures var o := Operate(policy, env, host, hosts, n, throttled);
      && Attempts(o.actions) == k - n + 1
      && o.result == if env.outcome(k).NilError? then ReturnedNil else AttemptFailed(env.outcome(k).category)
    decreases k - n
  {
    GoingOn(env, host, hosts, n);
    if n < k {
      assert !IsLast(policy, env, n);
      var after := ApplyAll(Going(env, host, hosts, n), env.during(n));
      AttemptsFrom(policy, env, host, after, n + 1, env.outcome(n).throttling, k);
      var rest := Operate(policy, env, host, after, n + 1, env.outcome(n).throttling);
      TriedCounts(policy, env, n, throttled);
      CountsAdd(Tried(policy, env, n, throttled), rest.actions);
    } else {
      EndsFrom(policy, env, host, Going(env, host, hosts, n), n, throttled);
    }
  }

  /** Against a closed breaker an operation makes attempts up to the first that answers nil or fails with anything
      but a network error, a timeout or an unknown error, and no more than its policy allows; that attempt is
      its result. */
  lemma AttemptsUntilSettled(policy: Policy, env: Env, host: Host, hosts: Hosts, k: int)
    requires 1 <= k <= policy.maxAttempts && policy.maxDelay >= 0 && Alone(env, host)
    requires StateOf(hosts, host).status == Closed
    requires IsLast(policy, env, k) && forall i :: 1 <= i < k ==> !IsLast(policy, env, i)
    requires forall i :: 1 <= i <= k ==> !IsInterrupted(env, i)
    ensures var o := WithRetrySpec(policy, env, host, hosts);
      && Attempts(o.actions) == k
      && o.result == if env.outcome(k).NilError? then ReturnedNil else AttemptFailed(env.outcome(k).category)
  {
    AttemptsFrom(policy, env, host, hosts, 1, false, k);
  }

  predicate WouldRefuse(s: HostState, now: Time) {
    s.status != Closed && !Allows(s, now)
  }

  /** A refused first Allow means no attempt and no record. */
  lemma RefusedHost(policy: Policy, env: Env, host: Host, hosts: Hosts, n: int, throttled: bool)
    requires n >= 1 && Alone(env, host) && WouldRefuse(StateOf(hosts, host), env.askedAt(n))
    ensures var o := Operate(policy, env, host, hosts, n, throttled);
      && Attempts(o.actions) == 0 && Records(o.actions) == []
      && (o.result == CircuitOpen || o.result == NoAttempts)
      && StateOf(o.hosts, host) == StateOf(hosts, host)
  {
    OthersKeepState(hosts, env.before(n), host);
    ApplyIsLocal(ApplyAll(hosts, env.before(n)), host, env.askedAt(n), false, Unknown);
    assert [Ask(env.askedAt(n), false)][1..] == [];
  }

  // ----- the trial -----

  predicate IsLockedOut(s: HostState) {
    s.status == HalfOpen && s.probing
  }

  /** How the trial operation can put the breaker back to work. */
  predicate TrialIsRecorded(policy: Policy, env: Env) {
    || env.outcome(1).NilError?
    || (policy.maxAttempts == 1 && IsOutage(env.outcome(1).category))
  }

  /** The operation that gets the trial makes one attempt. Unless that attempt succeeds, or was the only
      one its policy allows and fails with a counted error, the trial is never recorded. */
  lemma TrialOperation(policy: Policy, env: Env, host: Host, hosts: Hosts)
    requires policy.maxAttempts >= 1 && policy.maxDelay >= 0 && Alone(env, host)
    requires StateOf(hosts, host).status == Open && Allows(StateOf(hosts, host), env.askedAt(1))
    ensures var o := WithRetrySpec(policy, env, host, hosts);
      && Attempts(o.actions) == 1
      && (IsLockedOut(StateOf(o.hosts, host)) <==> !TrialIsRecorded(policy, env))
      && (TrialIsRecorded(policy, env) ==>
            StateOf(o.hosts, host).status == if env.outcome(1).NilError? then Closed else Open)
  {
    GoingOn(env, host, hosts, 1);
    var going := Going(env, host, hosts, 1);
    if Continues(policy, env, 1) {
      var after := ApplyAll(going, env.during(1));
      RefusedHost(policy, env, host, after, 2, env.outcome(1).throttling);
      TriedCounts(policy, env, 1, false);
      CountsAdd(Tried(policy, env, 1, false), Operate(policy, env, host, after, 2, env.outcome(1).throttling).actions);
    } else {
      EndsFrom(policy, env, host, going, 1, false);
      EndsAccounts(policy, env, host, going, 1, false);
    }
  }

  // ----- sequences of calls -----

  function HostsBefore(host: Host, hosts: Hosts, calls: seq<Invocation>, i: nat): Hosts
    requires i <= |calls|
    decreases i, 0
  {
    if i == 0 then hosts else OperationAt(host, hosts, calls, i - 1).hosts
  }

  /** The i-th call, made after those before it. */
  function OperationAt(host: Host, hosts: Hosts, calls: seq<Invocation>, i: nat): Operation
    requires i < |calls|
    decreases i, 1
  {
    WithRetrySpec(calls[i].policy, calls[i].env, host, HostsBefore(host, hosts, calls, i))
  }

  ghost predicate AreAlone(calls: seq<Invocation>, host: Host) {
    forall i :: 0 <= i < |calls| ==> calls[i].policy.maxDelay >= 0 && Alone(calls[i].env, host)
  }

  /** The call puts an outcome on the host's record: a success, or a failure that counts. */
  predicate RecordsOutcome(call: Call, host: Host) {
    call.host == host && (call.Succeeded? || (call.Failed? && IsOutage(call.category)))
  }

  predicate RecordNothing(calls: seq<Call>, host: Host) {
    forall i :: 0 <= i < |calls| ==> !RecordsOutcome(calls[i], host)
  }

  /** Nobody else records an outcome for the host; they may ask. */
  ghost predicate OthersOnlyAsk(calls: seq<Invocation>, host: Host) {
    forall i, n :: 0 <= i < |calls| ==> RecordNothing(calls[i].env.before(n), host)
  }

  /** A host is released from its lost trial exactly by an outcome recorded for it. */
  lemma OutcomeReleases(hosts: Hosts, call: Call, host: Host)
    requires IsLockedOut(StateOf(hosts, host))
    ensures IsLockedOut(StateOf(Apply(hosts, call), host)) <==> !RecordsOutcome(call, host)
  {
  }

  lemma {:induction false} StaysLockedOut(hosts: Hosts, calls: seq<Call>, host: Host)
    requires IsLockedOut(StateOf(hosts, host)) && RecordNothing(calls, host)
    ensures IsLockedOut(StateOf(ApplyAll(hosts, calls), host))
  {
    if calls != [] {
      StaysLockedOut(hosts, calls[..|calls| - 1], host);
      OutcomeReleases(ApplyAll(hosts, calls[..|calls| - 1]), calls[|calls| - 1], host);
    }
  }

  /** Once the trial is lost, no operation makes an attempt, and none releases the host. */
  lemma LockedOutOperation(policy: Policy, env: Env, host: Host, hosts: Hosts)
    requires IsLockedOut(StateOf(hosts, host)) && RecordNothing(env.before(1), host)
    ensures var o := WithRetrySpec(policy, env, host, hosts);
      && Attempts(o.actions) == 0 && Records(o.actions) == [] && o.result != ReturnedNil
      && IsLockedOut(StateOf(o.hosts, host))
  {
    StaysLockedOut(hosts, env.before(1), host);
    var asked := ApplyAll(hosts, env.before(1));
    OutcomeReleases(asked, Asked(host, env.askedAt(1), false), host);
    assert [Ask(env.askedAt(1), false)][1..] == [];
  }

  /** So the host is locked out for as long as nobody else records an outcome for it, however many operations
      and questions come. */
  lemma {:induction false} LockedOutForever(host: Host, hosts: Hosts, calls: seq<Invocation>, i: nat)
    requires OthersOnlyAsk(calls, host) && IsLockedOut(StateOf(hosts, host)) && i < |calls|
    ensures Attempts(OperationAt(host, hosts, calls, i).actions) == 0
    ensures OperationAt(host, hosts, calls, i).result != ReturnedNil
    ensures IsLockedOut(StateOf(OperationAt(host, hosts, calls, i).hosts, host))
  {
    if i > 0 {
      LockedOutForever(host, hosts, calls, i - 1);
    }
    assert RecordNothing(calls[i].env.before(1), host);
    LockedOutOperation(calls[i].policy, calls[i].env, host, HostsBefore(host, hosts, calls, i));
  }

  /** Operations that ended in network or timeout since the last one that returned nil. */
  function CountedInARow(host: Host, hosts: Hosts, calls: seq<Invocation>, n: nat): nat
    requires n <= |calls|
  {
    if n == 0 then 0
    else
      var result := OperationAt(host, hosts, calls, n - 1).result;
      if result == ReturnedNil then 0
      else CountedInARow(host, hosts, calls, n - 1) + if Counts(result) then 1 else 0
  }

  /** From a fresh host, the breaker stays closed exactly as long as fewer than five operations in a row
      failed with network or timeout; the fifth opens it. */
  lemma {:induction false} FiveOperationsOpen(host: Host, hosts: Hosts, calls: seq<Invocation>, n: nat)
    requires AreAlone(calls, host) && StateOf(hosts, host) == NO_FAILURES && n <= |calls|
    requires forall k :: 0 <= k < n ==> CountedInARow(host, hosts, calls, k) < 5
    ensures var s := StateOf(HostsBefore(host, hosts, calls, n), host);
      && s.consecutiveFailures == CountedInARow(host, hosts, calls, n) <= 5
      && s.status == (if s.consecutiveFailures < 5 then Closed else Open)
      && !s.probing
      && (s.status == Open ==>
            n > 0 && Records(OperationAt(host, hosts, calls, n - 1).actions) != []
            && Records(OperationAt(host, hosts, calls, n - 1).actions)[0].RecordBad?
            && s.openedAt == Records(OperationAt(host, hosts, calls, n - 1).actions)[0].now)
  {
    if n > 0 {
      FiveOperationsOpen(host, hosts, calls, n - 1);
      assert CountedInARow(host, hosts, calls, n - 1) < 5;
      ClosedOperation(calls[n - 1].policy, calls[n - 1].env, host, HostsBefore(host, hosts, calls, n - 1));
    }
  }

  /** The operations from n to m all start within 60 s of the given moment. */
  ghost predicate StartBefore(calls: seq<Invocation>, n: nat, m: nat, since: Time)
    requires m < |calls|
  {
    forall k :: n <= k <= m ==> calls[k].env.askedAt(1) - since < 60_000_000_000
  }

  lemma {:induction false} OpenHostRefuses(host: Host, hosts: Hosts, calls: seq<Invocation>, n: nat, m: nat)
    requires AreAlone(calls, host) && n <= m < |calls|
    requires StateOf(HostsBefore(host, hosts, calls, n), host).status == Open
    requires StartBefore(calls, n, m, StateOf(HostsBefore(host, hosts, calls, n), host).openedAt)
    ensures StateOf(HostsBefore(host, hosts, calls, m), host) == StateOf(HostsBefore(host, hosts, calls, n), host)
    ensures Attempts(OperationAt(host, hosts, calls, m).actions) == 0
    ensures Records(OperationAt(host, hosts, calls, m).actions) == []
    ensures StateOf(HostsBefore(host, hosts, calls, m + 1), host) == StateOf(HostsBefore(host, hosts, calls, n), host)
  {
    if n < m {
      OpenHostRefuses(host, hosts, calls, n, m - 1);
    }
    RefusedHost(calls[m].policy, calls[m].env, host, HostsBefore(host, hosts, calls, m), 1, false);
  }

  /** After the fifth, no operation makes an attempt as long as operations start within 60 s of its record,
      however many there are, and the host stays as the fifth left it. */
  lemma NoAttemptWhileOpen(host: Host, hosts: Hosts, calls: seq<Invocation>, n: nat, m: nat)
    requires AreAlone(calls, host) && StateOf(hosts, host) == NO_FAILURES && 0 < n <= m < |calls|
    requires forall k :: 0 <= k < n ==> CountedInARow(host, hosts, calls, k) < 5
    requires CountedInARow(host, hosts, calls, n) == 5
    ensures var last := Records(OperationAt(host, hosts, calls, n - 1).actions);
      && last != [] && last[0].RecordBad?
      && (StartBefore(calls, n, m, last[0].now) ==>
            && Attempts(OperationAt(host, hosts, calls, m).actions) == 0
            && StateOf(HostsBefore(host, hosts, calls, m + 1), host)
            == StateOf(HostsBefore(host, hosts, calls, n), host))
  {
    FiveOperationsOpen(host, hosts, calls, n);
    if StartBefore(calls, n, m, Records(OperationAt(host, hosts, calls, n - 1).actions)[0].now) {
      OpenHostRefuses(host, hosts, calls, n, m);
    }
  }
}
