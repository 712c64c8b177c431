/**
The per-host circuit breaker. Each call is one critical section. Its reachable behaviour is proved equal
to a rule over the log of past calls that mentions no internal state.
*/
module CircuitBreaker {
  const MAX_CONSECUTIVE_FAILURES := 5
  /** 60 s, in nanoseconds. */
  const OPEN_DURATION := 60_000_000_000

  type Time = int
  type Host = string

  datatype Category = Network | Timeout | Auth | Tls | Cancelled | Unknown

  datatype Status = Closed | Open | HalfOpen

  datatype HostState = HostState(status: Status, consecutiveFailures: nat, openedAt: Time, probing: bool)

  const NO_FAILURES := HostState(Closed, 0, 0, false)

  predicate CountsTowardBreaker(category: Category) {
    category == Network || category == Timeout
  }

  // ----- the state machine of one host -----

  predicate Allows(s: HostState, now: Time) {
    match s.status
    case Closed => true
    case HalfOpen => !s.probing
    case Open => now - s.openedAt >= OPEN_DURATION
  }

  function AfterAllow(s: HostState, now: Time): HostState {
    if Allows(s, now) && s.status != Closed then s.(status := HalfOpen, probing := true) else s
  }

  function AfterSuccess(s: HostState): HostState {
    s.(status := Closed, consecutiveFailures := 0, probing := false)
  }

  function AfterFailure(s: HostState, now: Time, category: Category): HostState {
    if !CountsTowardBreaker(category) then s
    else if s.status == HalfOpen || s.consecutiveFailures + 1 >= MAX_CONSECUTIVE_FAILURES then
      HostState(Open, s.consecutiveFailures + 1, now, false)
    else s.(consecutiveFailures := s.consecutiveFailures + 1, probing := false)
  }

  // ----- the log -----

  /** Calls as their callers saw them: which host, when, with what answer. */
  datatype Call =
    | Asked(host: Host, now: Time, granted: bool)
    | Succeeded(host: Host)
    | Failed(host: Host, now: Time, category: Category)

  /** The failures the rule counts: the host could not be reached, or did not answer in time. */
  predicate IsOutage(category: Category) {
    category in {Network, Timeout}
  }

  /** Counted failures of the host since its last success. */
  function Failures(log: seq<Call>, host: Host): nat {
    if log == [] then 0
    else
      var before := Failures(log[..|log| - 1], host);
      match log[|log| - 1]
      case Succeeded(h) => if h == host then 0 else before
      case Failed(h, _, category) => if h == host && IsOutage(category) then before + 1 else before
      case Asked(_, _, _) => before
  }

  /** When the last counted failure happened. */
  function LastFailure(log: seq<Call>, host: Host): Time {
    if log == [] then 0
    else
      match log[|log| - 1]
      case Failed(h, now, category) =>
        if h == host && IsOutage(category) then now else LastFailure(log[..|log| - 1], host)
      case _ => LastFailure(log[..|log| - 1], host)
  }

  /** Whether a request was granted after the last counted failure. */
  predicate GrantedSince(log: seq<Call>, host: Host) {
    if log == [] then false
    else
      var before := GrantedSince(log[..|log| - 1], host);
      match log[|log| - 1]
      case Failed(h, _, category) => before && !(h == host && IsOutage(category))
      case Asked(h, _, granted) => before || (h == host && granted)
      case Succeeded(h) => before
  }

  /** The rule: below five counted failures always; otherwise once, when 60 s have passed since the last. */
  predicate Rule(log: seq<Call>, host: Host, now: Time) {
    || Failures(log, host) < 5
    || (now - LastFailure(log, host) >= 60_000_000_000 && !GrantedSince(log, host))
  }

  /** A trial request is held: granted although five failures are counted, and not answered yet. */
  predicate TrialHeld(log: seq<Call>, host: Host) {
    Failures(log, host) >= 5 && GrantedSince(log, host)
  }

  // ----- every history of the breaker -----

  function StateOf(hosts: map<Host, HostState>, host: Host): HostState {
    if host in hosts then hosts[host] else NO_FAILURES
  }

  /** The breaker's table after the calls, and whether each of its answers is the recorded one. */
  function Replay(log: seq<Call>): map<Host, HostState> {
    if log == [] then map[]
    else Apply(Replay(log[..|log| - 1]), log[|log| - 1])
  }

  /** A host is entered at its first counted failure. */
  function Apply(hosts: map<Host, HostState>, call: Call): map<Host, HostState> {
    match call
    case Asked(host, now, _) => if host in hosts then hosts[host := AfterAllow(hosts[host], now)] else hosts
    case Succeeded(host) => if host in hosts then hosts[host := AfterSuccess(hosts[host])] else hosts
    case Failed(host, now, category) =>
      if CountsTowardBreaker(category) then hosts[host := AfterFailure(StateOf(hosts, host), now, category)] else hosts
  }

  predicate IsHistory(log: seq<Call>) {
    log == [] ||
    var front, call := log[..|log| - 1], log[|log| - 1];
    && IsHistory(front)
    && (call.Asked? ==> call.granted == Allows(StateOf(Replay(front), call.host), call.now))
  }

  /** The internal state of a host says no more than the log does. */
  predicate Agrees(s: HostState, log: seq<Call>, host: Host) {
    && s.consecutiveFailures == Failures(log, host)
    && s.probing == TrialHeld(log, host)
    && s.status == (if Failures(log, host) < MAX_CONSECUTIVE_FAILURES then Closed
                    else if GrantedSince(log, host) then HalfOpen else Open)
    && (s.status != Closed ==> s.openedAt == LastFailure(log, host))
  }

  lemma AgreesMeansRule(s: HostState, log: seq<Call>, host: Host, now: Time)
    requires Agrees(s, log, host)
    ensures Allows(s, now) <==> Rule(log, host, now)
    ensures s.status == HalfOpen <==> TrialHeld(log, host)
  {
  }

  lemma CallAgrees(hosts: map<Host, HostState>, log: seq<Call>, call: Call, host: Host)
    requires Agrees(StateOf(hosts, host), log, host)
    requires call.Asked? && call.host == host ==> call.granted == Allows(StateOf(hosts, host), call.now)
    ensures Agrees(StateOf(Apply(hosts, call), host), log + [call], host)
  {
    assert (log + [call])[..|log|] == log;
  }

  lemma {:induction false} HistoryAgrees(log: seq<Call>, host: Host)
    requires IsHistory(log)
    ensures Agrees(StateOf(Replay(log), host), log, host)
  {
    if log != [] {
      var front, call := log[..|log| - 1], log[|log| - 1];
      HistoryAgrees(front, host);
      CallAgrees(Replay(front), front, call, host);
      assert log == front + [call];
    }
  }

  /** Every answer of the breaker, in every sequence of calls, is the rule's; it is half-open exactly
      while a trial is held. */
  lemma BreakerEqualsRule(log: seq<Call>, i: nat)
    requires IsHistory(log) && i < |log| && log[i].Asked?
    ensures log[i].granted <==> Rule(log[..i], log[i].host, log[i].now)
  {
    PrefixIsHistory(log, i + 1);
    assert log[..i + 1][..i] == log[..i];
    HistoryAgrees(log[..i], log[i].host);
    AgreesMeansRule(StateOf(Replay(log[..i]), log[i].host), log[..i], log[i].host, log[i].now);
  }

  lemma HalfOpenIsTrialHeld(log: seq<Call>, host: Host)
    requires IsHistory(log)
    ensures StateOf(Replay(log), host).status == HalfOpen <==> TrialHeld(log, host)
  {
    HistoryAgrees(log, host);
  }

  lemma {:induction false} PrefixIsHistory(log: seq<Call>, i: nat)
    requires IsHistory(log) && i <= |log|
    ensures IsHistory(log[..i])
  {
    if i < |log| {
      PrefixIsHistory(log[..|log| - 1], i);
      assert log[..|log| - 1][..i] == log[..i];
    } else {
      assert log[..i] == log;
    }
  }

  // ----- one host at a time -----

  function OnlyHost(log: seq<Call>, host: Host): seq<Call> {
    if log == [] then []
    else OnlyHost(log[..|log| - 1], host) + (if log[|log| - 1].host == host then [log[|log| - 1]] else [])
  }

  /** Calls for other hosts have no effect. */
  lemma {:induction false} OtherHostsDoNotMatter(log: seq<Call>, host: Host, now: Time)
    ensures Failures(OnlyHost(log, host), host) == Failures(log, host)
    ensures LastFailure(OnlyHost(log, host), host) == LastFailure(log, host)
    ensures GrantedSince(OnlyHost(log, host), host) == GrantedSince(log, host)
    ensures Rule(OnlyHost(log, host), host, now) == Rule(log, host, now)
  {
    if log != [] {
      var front, call := log[..|log| - 1], log[|log| - 1];
      OtherHostsDoNotMatter(front, host, now);
      var only := OnlyHost(front, host);
      if call.host == host {
        assert OnlyHost(log, host) == only + [call];
        assert (only + [call])[..|only|] == only;
      } else {
        assert OnlyHost(log, host) == only;
      }
    }
  }

  /** While five failures stand, two granted requests have a counted failure between them. */
  lemma OneTrialAtATime(log: seq<Call>, i: nat, j: nat)
    requires IsHistory(log) && i < j < |log| && log[i].Asked? && log[j].Asked?
    requires log[i].host == log[j].host && log[i].granted && log[j].granted
    requires Failures(log[..j], log[j].host) >= MAX_CONSECUTIVE_FAILURES
    ensures exists k :: i < k < j &&
              log[k].Failed? && log[k].host == log[j].host && CountsTowardBreaker(log[k].category)
  {
    BreakerEqualsRule(log, j);
    if forall k :: i < k < j ==>
         !(log[k].Failed? && log[k].host == log[j].host && CountsTowardBreaker(log[k].category)) {
      GrantLasts(log, i, j, log[j].host);
    }
  }

  lemma {:induction false} GrantLasts(log: seq<Call>, i: nat, j: nat, host: Host)
    requires i < j <= |log| && log[i].Asked? && log[i].host == host && log[i].granted
    requires forall k :: i < k < j ==> !(log[k].Failed? && log[k].host == host && CountsTowardBreaker(log[k].category))
    ensures GrantedSince(log[..j], host)
  {
    assert log[..j][..j - 1] == log[..j - 1];
    if i < j - 1 {
      GrantLasts(log, i, j - 1, host);
    }
  }

  // ----- the breaker itself -----

  class CircuitBreaker {
    var hosts: map<Host, HostState>
    /** Every call so far. */
    ghost var log: seq<Call>

    constructor ()
      ensures Valid() && log == []
    {
      hosts, log := map[], [];
    }

    ghost predicate Valid()
      reads this
    {
      IsHistory(log) && hosts == Replay(log)
    }

    /** The answer is the rule's, over the calls so far. */
    method Allow(host: Host, now: Time) returns (granted: bool)
      requires Valid()
      modifies this
      ensures Valid() && log == old(log) + [Asked(host, now, granted)]
      ensures hosts == Apply(old(hosts), Asked(host, now, granted))
      ensures granted == Rule(old(log), host, now)
      ensures granted == Allows(StateOf(old(hosts), host), now)
    {
      HistoryAgrees(log, host);
      AgreesMeansRule(StateOf(hosts, host), log, host, now);
      granted := true;
      if host in hosts {
        var state := hosts[host];
        match state.status {
          case Closed =>
          case HalfOpen =>
            granted := !state.probing;
            hosts := hosts[host := state.(probing := true)];
          case Open =>
            granted := now - state.openedAt >= OPEN_DURATION;
            if granted {
              hosts := hosts[host := state.(status := HalfOpen, probing := true)];
            }
        }
      }
      log := log + [Asked(host, now, granted)];
      assert hosts == Replay(log);
    }

    method RecordSuccess(host: Host)
      requires Valid()
      modifies this
      ensures Valid() && log == old(log) + [Succeeded(host)] && hosts == Apply(old(hosts), Succeeded(host))
    {
      if host in hosts {
        hosts := hosts[host := hosts[host].(status := Closed, consecutiveFailures := 0, probing := false)];
      }
      log := log + [Succeeded(host)];
    }

    method RecordFailure(host: Host, now: Time, category: Category)
      requires Valid()
      modifies this
      ensures Valid() && log == old(log) + [Failed(host, now, category)]
      ensures hosts == Apply(old(hosts), Failed(host, now, category))
    {
      if CountsTowardBreaker(category) {
        var state := if host in hosts then hosts[host] else NO_FAILURES;
        var wasHalfOpen := state.status == HalfOpen;
        state := state.(consecutiveFailures := state.consecutiveFailures + 1, probing := false);
        if wasHalfOpen || state.consecutiveFailures >= MAX_CONSECUTIVE_FAILURES {
          state := state.(status := Open, openedAt := now);
        }
        hosts := hosts[host := state];
      }
      log := log + [Failed(host, now, category)];
    }
  }
}
