/**
 * The sliding-window quota of agent/travel_agent/providers/gateway.py, with the circuit breaker
 * that guards it and the state pruning that runs between calls.
 */
module Gateway {
  import opened Common

  datatype Policy = Policy(limit: nat, window: real, failureThreshold: int, openSeconds: real)

  /** The ranges that `GatewayPolicy.__post_init__` enforces on these fields. */
  predicate PolicyOk(p: Policy) {
    && 1 <= p.limit <= 100000
    && 0.1 <= p.window <= 3600.0
    && 1 <= p.failureThreshold <= 100
    && 0.1 <= p.openSeconds <= 3600.0
  }

  datatype Circuit = Circuit(failures: int, openedAt: Option<real>, halfOpenInflight: bool)

  datatype RateKey = RateKey(provider: string, tenant: string)

  datatype Verdict = Admitted | CircuitOpen | RateLimited

  datatype Capability = PlaceSearch | Geocode | RouteMatrix(destinations: nat) | OpeningHours(places: nat) | Weather

  /** `_rate_cost`: one per physical call hidden behind the operation; opening hours are asked for ten places at a time. */
  function RateCost(c: Capability): (cost: nat)
    ensures c.OpeningHours? ==> 10 * (cost - 1) < c.places <= 10 * cost
    ensures c.RouteMatrix? ==> cost == c.destinations
    ensures c.PlaceSearch? || c.Geocode? || c.Weather? ==> cost == 1
  {
    match c
    case RouteMatrix(n) => n
    case OpeningHours(n) => (n + 9) / 10
    case _ => 1
  }

  // ---------------------------------------------------------------------------------------------
  // Windows

  predicate Ascending(s: seq<real>) {
    forall i, j :: 0 <= i < j < |s| ==> s[i] <= s[j]
  }

  function Drop(w: seq<real>, cutoff: real): seq<real> {
    if w != [] && w[0] <= cutoff then Drop(w[1..], cutoff) else w
  }

  function Copies(t: real, n: nat): seq<real> {
    seq(n, _ => t)
  }

  /** Dropping removes a prefix of expired entries and leaves an unexpired head. */
  lemma {:induction false} DropSplits(w: seq<real>, cutoff: real) returns (n: nat)
    ensures n <= |w| && Drop(w, cutoff) == w[n..]
    ensures forall i :: 0 <= i < n ==> w[i] <= cutoff
    ensures n < |w| ==> w[n] > cutoff
  {
    if w != [] && w[0] <= cutoff {
      var m := DropSplits(w[1..], cutoff);
      n := m + 1;
      assert w[1..][m..] == w[n..];
      forall i | 0 <= i < n
        ensures w[i] <= cutoff
      {
        assert i > 0 ==> w[i] == w[1..][i - 1];
      }
    } else {
      n := 0;
    }
  }

  // ---------------------------------------------------------------------------------------------
  // The state and its steps

  const CLOSED := Circuit(0, None, false)

  datatype State = State(circuits: map<string, Circuit>, windows: map<RateKey, seq<real>>)
  {
    function CircuitOf(p: string): Circuit {
      if p in circuits then circuits[p] else CLOSED
    }

    function Window(k: RateKey): seq<real> {
      if k in windows then windows[k] else []
    }
  }

  /** The circuit lets a call through when it is closed, or when its open period is over and no probe is running. */
  predicate Passes(p: Policy, c: Circuit, now: real) {
    c.openedAt.Some? ==> now - c.openedAt.value >= p.openSeconds && !c.halfOpenInflight
  }

  function Guarded(p: Policy, s: State, k: RateKey, cost: nat, now: real): (State, Verdict) {
    var c := s.CircuitOf(k.provider);
    if !Passes(p, c, now) then (s, CircuitOpen)
    else
      var w := Drop(s.Window(k), now - p.window);
      if |w| + cost > p.limit then
        (s.(circuits := s.circuits[k.provider := if c.openedAt.Some? then c.(halfOpenInflight := false) else c],
            windows := s.windows[k := w]), RateLimited)
      else
        (s.(circuits := s.circuits[k.provider := if c.openedAt.Some? then c.(halfOpenInflight := true) else c],
            windows := s.windows[k := w + Copies(now, cost)]), Admitted)
  }

  function RecordSuccess(s: State, provider: string): State {
    s.(circuits := s.circuits[provider := CLOSED])
  }

  function RecordFailure(p: Policy, s: State, provider: string, counts: bool, now: real): State {
    var c := s.CircuitOf(provider);
    var released := if c.openedAt.Some? then c.(halfOpenInflight := false) else c;
    var failed :=
      if !counts then released
      else if c.failures + 1 >= p.failureThreshold then Circuit(c.failures + 1, Some(now), false)
      else released.(failures := c.failures + 1);
    s.(circuits := s.circuits[provider := failed])
  }

  function ReleaseHalfOpen(s: State, provider: string): State {
    s.(circuits := s.circuits[provider := s.CircuitOf(provider).(halfOpenInflight := false)])
  }

  /** `_prune_state` on the windows: drop what expired, forget empty windows. */
  function Prune(p: Policy, s: State, now: real): State {
    s.(windows := map k | k in s.windows && Drop(s.windows[k], now - p.window) != [] :: Drop(s.windows[k], now - p.window))
  }

  /** The gateway object; its methods change circuits and windows in place. */
  class ProviderGateway {
    const policy: Policy
    var circuits: map<string, Circuit>
    var windows: map<RateKey, seq<real>>

    ghost function View(): State
      reads this
    {
      State(circuits, windows)
    }

    constructor (p: Policy)
      ensures policy == p && View() == State(map[], map[])
    {
      policy := p;
      circuits, windows := map[], map[];
    }

    method BeforeCall(k: RateKey, cost: nat, now: real) returns (v: Verdict)
      modifies this
      ensures (View(), v) == Guarded(policy, old(View()), k, cost, now)
    {
      var c := if k.provider in circuits then circuits[k.provider] else CLOSED;
      if c.openedAt.Some? {
        if now - c.openedAt.value < policy.openSeconds {
          return CircuitOpen;
        }
        if c.halfOpenInflight {
          return CircuitOpen;
        }
        c := c.(halfOpenInflight := true);
      }
      circuits := circuits[k.provider := c];
      var w := if k in windows then windows[k] else [];
      var cutoff := now - policy.window;
      w := PopExpired(w, cutoff);
      windows := windows[k := w];
      if |w| + cost > policy.limit {
        if c.openedAt.Some? {
          circuits := circuits[k.provider := c.(halfOpenInflight := false)];
          assert circuits == old(circuits)[k.provider := c.(halfOpenInflight := false)];
        }
        return RateLimited;
      }
      windows := windows[k := w + Copies(now, cost)];
      assert windows == old(windows)[k := w + Copies(now, cost)];
      return Admitted;
    }

    method PruneState(now: real)
      modifies this
      ensures View() == Prune(policy, old(View()), now)
    {
      var todo := windows.Keys;
      var cutoff := now - policy.window;
      ghost var all := windows;
      while todo != {}
        invariant todo <= all.Keys
        invariant circuits == old(circuits)
        invariant forall k :: k in todo ==> k in windows && windows[k] == all[k]
        invariant forall k :: k in windows ==> k in all
        invariant forall k :: k in all && k !in todo ==>
                    if Drop(all[k], cutoff) == [] then k !in windows else k in windows && windows[k] == Drop(all[k], cutoff)
        decreases |todo|
      {
        var k :| k in todo;
        todo := todo - {k};
        var w := PopExpired(windows[k], cutoff);
        if w == [] {
          windows := windows - {k};
        } else {
          windows := windows[k := w];
        }
      }
      assert windows == Prune(policy, old(View()), now).windows;
    }
  }

  /** Take units off the front of a window as long as they have expired. */
  method PopExpired(window: seq<real>, cutoff: real) returns (w: seq<real>)
    ensures w == Drop(window, cutoff)
  {
    w := window;
    while w != [] && w[0] <= cutoff
      invariant Drop(w, cutoff) == Drop(window, cutoff)
      decreases |w|
    {
      w := w[1..];
    }
  }

  // ---------------------------------------------------------------------------------------------
  // Runs

  datatype Call =
    | Before(key: RateKey, operation: Capability, now: real)
    | Success(provider: string)
    | Failure(provider: string, counts: bool, now: real)
    | Release(provider: string)
    | PruneAll(now: real)

  /** The gateway, the units admitted so far for each key, and the latest clock reading. */
  datatype System = System(state: State, log: map<RateKey, seq<real>>, clock: real)
  {
    function Log(k: RateKey): seq<real> {
      if k in log then log[k] else []
    }
  }

  function Reading(c: Call, clock: real): real {
    match c
    case Before(_, _, now) => now
    case PruneAll(now) => now
    case Failure(_, _, now) => now
    case _ => clock
  }

  function Step(p: Policy, s: System, c: Call): System {
    match c
    case Before(k, operation, now) =>
      var cost := RateCost(operation);
      var (state, verdict) := Guarded(p, s.state, k, cost, now);
      System(state, if verdict.Admitted? then s.log[k := s.Log(k) + Copies(now, cost)] else s.log, now)
    case Success(provider) => s.(state := RecordSuccess(s.state, provider))
    case Failure(provider, counts, now) => s.(state := RecordFailure(p, s.state, provider, counts, now), clock := now)
    case Release(provider) => s.(state := ReleaseHalfOpen(s.state, provider))
    case PruneAll(now) => s.(state := Prune(p, s.state, now), clock := now)
  }

  function Exec(p: Policy, s: System, calls: seq<Call>): System
    decreases |calls|
  {
    if calls == [] then s else Exec(p, Step(p, s, calls[0]), calls[1..])
  }

  /** The clock never runs backwards along the calls. */
  predicate Monotone(clock: real, calls: seq<Call>)
    decreases |calls|
  {
    calls == [] || (clock <= Reading(calls[0], clock) && Monotone(Reading(calls[0], clock), calls[1..]))
  }

  function Start(clock: real): System {
    System(State(map[], map[]), map[], clock)
  }

  // ---------------------------------------------------------------------------------------------
  // The quota

  /** Any `limit + 1` consecutive units span at least one window. */
  ghost predicate Spaced(p: Policy, log: seq<real>) {
    forall i, j :: 0 <= i && j == i + p.limit && j < |log| ==> log[i] <= log[j] - p.window
  }

  /** The window is the tail of the log; what is missing from it expired. */
  ghost predicate KeyOk(p: Policy, log: seq<real>, window: seq<real>, clock: real) {
    && Ascending(log)
    && (forall i :: 0 <= i < |log| ==> log[i] <= clock)
    && |window| <= |log|
    && window == log[|log| - |window|..]
    && (forall i :: 0 <= i < |log| - |window| ==> log[i] <= clock - p.window)
    && Spaced(p, log)
  }

  ghost predicate Inv(p: Policy, s: System) {
    forall k :: KeyOk(p, s.Log(k), s.state.Window(k), s.clock)
  }

  lemma KeyLater(p: Policy, log: seq<real>, window: seq<real>, clock: real, now: real)
    requires KeyOk(p, log, window, clock) && clock <= now
    ensures KeyOk(p, log, window, now)
  {
  }

  lemma KeyDrop(p: Policy, log: seq<real>, window: seq<real>, now: real)
    requires KeyOk(p, log, window, now)
    ensures KeyOk(p, log, Drop(window, now - p.window), now)
  {
    var n := DropSplits(window, now - p.window);
    var w := window[n..];
    assert w == log[|log| - |w|..];
    forall i | 0 <= i < |log| - |w|
      ensures log[i] <= now - p.window
    {
      if i >= |log| - |window| {
        assert log[i] == window[i - (|log| - |window|)];
      }
    }
  }

  lemma KeyAdmit(p: Policy, log: seq<real>, window: seq<real>, cost: nat, now: real)
    requires KeyOk(p, log, window, now) && |window| + cost <= p.limit
    ensures KeyOk(p, log + Copies(now, cost), window + Copies(now, cost), now)
  {
  }

  datatype Effect = Kept | Dropped | Charged(cost: nat)

  /** What one step does to one key: nothing, dropping what expired, or dropping and then charging. */
  lemma StepOnKey(p: Policy, s: System, c: Call, k: RateKey) returns (e: Effect)
    ensures var t := Step(p, s, c);
            var w := Drop(s.state.Window(k), t.clock - p.window);
            && t.clock == Reading(c, s.clock)
            && match e
               case Kept => t.Log(k) == s.Log(k) && t.state.Window(k) == s.state.Window(k)
               case Dropped => t.Log(k) == s.Log(k) && t.state.Window(k) == w
               case Charged(cost) =>
                 && |w| + cost <= p.limit
                 && t.Log(k) == s.Log(k) + Copies(t.clock, cost)
                 && t.state.Window(k) == w + Copies(t.clock, cost)
  {
    hide Copies;
    match c
    case Before(key, operation, now) =>
      var cost := RateCost(operation);
      var verdict := Guarded(p, s.state, key, cost, now).1;
      e := if key != k || verdict.CircuitOpen? then Kept else if verdict.Admitted? then Charged(cost) else Dropped;
    case PruneAll(now) => e := Dropped;
    case _ => e := Kept;
  }

  lemma StepKeepsInv(p: Policy, s: System, c: Call)
    requires Inv(p, s) && s.clock <= Reading(c, s.clock)
    ensures Inv(p, Step(p, s, c))
  {
    hide KeyOk, Drop, Step, Copies;
    var t := Step(p, s, c);
    forall k
      ensures KeyOk(p, t.Log(k), t.state.Window(k), t.clock)
    {
      var e := StepOnKey(p, s, c, k);
      var log, window := s.Log(k), s.state.Window(k);
      assert KeyOk(p, log, window, s.clock);
      KeyLater(p, log, window, s.clock, t.clock);
      KeyDrop(p, log, window, t.clock);
      if e.Charged? {
        KeyAdmit(p, log, Drop(window, t.clock - p.window), e.cost, t.clock);
      }
    }
  }

  lemma {:induction false} ExecKeepsInv(p: Policy, s: System, calls: seq<Call>)
    requires Inv(p, s) && Monotone(s.clock, calls)
    ensures Inv(p, Exec(p, s, calls))
    decreases |calls|
  {
    if calls != [] {
      StepKeepsInv(p, s, calls[0]);
      ExecKeepsInv(p, Step(p, s, calls[0]), calls[1..]);
    }
  }

  /** The units admitted in the half-open interval (lo, hi]. */
  function CountIn(log: seq<real>, lo: real, hi: real): nat {
    if log == [] then 0
    else CountIn(log[..|log| - 1], lo, hi) + if lo < log[|log| - 1] <= hi then 1 else 0
  }

  /** In an ascending log those units are consecutive. */
  lemma {:induction false} CountIsARange(log: seq<real>, lo: real, hi: real) returns (a: nat, b: nat)
    requires Ascending(log)
    ensures a <= b <= |log| && CountIn(log, lo, hi) == b - a
    ensures forall i :: 0 <= i < |log| ==> (a <= i < b <==> lo < log[i] <= hi)
  {
    if log == [] {
      a, b := 0, 0;
    } else {
      var n := |log| - 1;
      var init := log[..n];
      a, b := CountIsARange(init, lo, hi);
      assert forall i :: 0 <= i < n ==> init[i] == log[i];
      assert a < b < n ==> log[b - 1] <= log[b] <= log[n];
      if lo < log[n] <= hi {
        a, b := if a == b then n else a, n + 1;
      }
    }
  }

  lemma SpacedBoundsCount(p: Policy, log: seq<real>, t: real)
    requires Ascending(log) && Spaced(p, log)
    ensures CountIn(log, t - p.window, t) <= p.limit
  {
    var a, b := CountIsARange(log, t - p.window, t);
    assert a + p.limit < |log| ==> log[a] <= log[a + p.limit] - p.window;
  }

  /**
   * For every run with a clock that never runs backwards, every provider and tenant and every time
   * t, the cost admitted in (t - window, t] is within the limit.
   */
  lemma QuotaHolds(p: Policy, clock: real, calls: seq<Call>, k: RateKey, t: real)
    requires PolicyOk(p) && Monotone(clock, calls)
    ensures CountIn(Exec(p, Start(clock), calls).Log(k), t - p.window, t) <= p.limit
  {
    assert forall key :: KeyOk(p, Start(clock).Log(key), Start(clock).state.Window(key), clock);
    ExecKeepsInv(p, Start(clock), calls);
    var s := Exec(p, Start(clock), calls);
    assert KeyOk(p, s.Log(k), s.state.Window(k), s.clock);
    SpacedBoundsCount(p, s.Log(k), t);
  }

  // ---------------------------------------------------------------------------------------------
  // The circuit

  /** The calls give the open circuit of `provider`, opened at `o`, no reason to let a call through. */
  predicate StaysOpen(p: Policy, provider: string, o: real, calls: seq<Call>) {
    forall i :: 0 <= i < |calls| ==>
      match calls[i]
      case Success(q) => q != provider
      case Failure(q, _, now) => q == provider ==> now >= o
      case Before(k, _, now) => k.provider == provider ==> now - o < p.openSeconds
      case _ => true
  }

  /** While the open period lasts, nothing is admitted for that provider, whatever fails or is pruned meanwhile. */
  lemma {:induction false} OpenCircuitAdmitsNothing(p: Policy, s: System, calls: seq<Call>, k: RateKey, o: real)
    requires s.state.CircuitOf(k.provider).openedAt.Some? && s.state.CircuitOf(k.provider).openedAt.value >= o
    requires StaysOpen(p, k.provider, o, calls)
    ensures Exec(p, s, calls).Log(k) == s.Log(k)
    decreases |calls|
  {
    if calls != [] {
      assert StaysOpen(p, k.provider, o, calls[1..]);
      assert StaysOpen(p, k.provider, o, calls[..1]);
      OpenCircuitAdmitsNothing(p, Step(p, s, calls[0]), calls[1..], k, o);
    }
  }

  /** Failures of one provider that count, at the given times. */
  function AfterFailures(p: Policy, s: State, provider: string, times: seq<real>): State {
    if times == [] then s
    else RecordFailure(p, AfterFailures(p, s, provider, times[..|times| - 1]), provider, true, times[|times| - 1])
  }

  /** After a success the circuit opens with exactly the failure that reaches the threshold, at the time of the latest failure. */
  lemma {:induction false} ThresholdOpensTheCircuit(p: Policy, s: State, provider: string, times: seq<real>)
    requires PolicyOk(p)
    ensures var c := AfterFailures(p, RecordSuccess(s, provider), provider, times).CircuitOf(provider);
            && c.failures == |times| && !c.halfOpenInflight
            && c.openedAt == if |times| >= p.failureThreshold then Some(times[|times| - 1]) else None
  {
    if times != [] {
      ThresholdOpensTheCircuit(p, s, provider, times[..|times| - 1]);
    }
  }

  /** The units of the window that have not expired at `t`. */
  function Unexpired(w: seq<real>, cutoff: real): nat {
    if w == [] then 0 else Unexpired(w[1..], cutoff) + if w[0] > cutoff then 1 else 0
  }

  lemma {:induction false} DropCounts(w: seq<real>, cutoff: real)
    requires Ascending(w)
    ensures |Drop(w, cutoff)| == Unexpired(w, cutoff)
  {
    if w != [] {
      assert Ascending(w[1..]);
      DropCounts(w[1..], cutoff);
      if w[0] > cutoff {
        assert Drop(w[1..], cutoff) == w[1..] by {
          assert w[1..] != [] ==> w[1..][0] >= w[0];
        }
      }
    }
  }

  /**
   * When a call is let through: the circuit is closed, or its open period is over and nobody probes,
   * and the units of the window that have not expired leave room for its cost.
   */
  lemma AdmittedIff(p: Policy, s: State, k: RateKey, cost: nat, now: real)
    requires Ascending(s.Window(k))
    ensures var c := s.CircuitOf(k.provider); var v := Guarded(p, s, k, cost, now).1;
            var open := c.openedAt.Some? && (now - c.openedAt.value < p.openSeconds || c.halfOpenInflight);
            var room := Unexpired(s.Window(k), now - p.window) + cost <= p.limit;
            && (v == CircuitOpen <==> open)
            && (v == RateLimited <==> !open && !room)
            && (v == Admitted <==> !open && room)
  {
    DropCounts(s.Window(k), now - p.window);
    hide Drop, Unexpired;
  }

  /** A failure that does not count leaves a closed circuit as it is, and a success closes it. */
  lemma NeutralReports(p: Policy, s: State, provider: string, now: real)
    ensures RecordSuccess(s, provider).CircuitOf(provider) == Circuit(0, None, false)
    ensures s.CircuitOf(provider).openedAt.None? ==>
              RecordFailure(p, s, provider, false, now).CircuitOf(provider) == s.CircuitOf(provider)
    ensures forall q :: q != provider ==>
              && RecordSuccess(s, provider).CircuitOf(q) == s.CircuitOf(q)
              && RecordFailure(p, s, provider, false, now).CircuitOf(q) == s.CircuitOf(q)
              && RecordFailure(p, s, provider, true, now).CircuitOf(q) == s.CircuitOf(q)
              && ReleaseHalfOpen(s, provider).CircuitOf(q) == s.CircuitOf(q)
  {
  }

  // ---------------------------------------------------------------------------------------------
  // The half-open probe

  /** A call is probing the open circuit of `provider`. */
  predicate Probing(s: System, provider: string) {
    s.state.CircuitOf(provider).openedAt.Some? && s.state.CircuitOf(provider).halfOpenInflight
  }

  /** An outcome reported for `provider`, by whichever caller. */
  predicate Reports(c: Call, provider: string) {
    match c
    case Success(q) => q == provider
    case Failure(q, _, _) => q == provider
    case Release(q) => q == provider
    case _ => false
  }

  predicate NoReport(provider: string, calls: seq<Call>) {
    forall i :: 0 <= i < |calls| ==> !Reports(calls[i], provider)
  }

  lemma {:induction false} ExecConcat(p: Policy, s: System, a: seq<Call>, b: seq<Call>)
    ensures Exec(p, s, a + b) == Exec(p, Exec(p, s, a), b)
    decreases |a|
  {
    if a == [] {
      assert a + b == b;
    } else {
      assert (a + b)[1..] == a[1..] + b;
      ExecConcat(p, Step(p, s, a[0]), a[1..], b);
    }
  }

  lemma ExecOne(p: Policy, s: System, c: Call)
    ensures Exec(p, s, [c]) == Step(p, s, c)
  {
    hide Step;
    assert [c][1..] == [];
  }

  lemma ExecTwo(p: Policy, s: System, c: Call, d: Call)
    ensures Exec(p, s, [c, d]) == Step(p, Step(p, s, c), d)
  {
    hide Step;
    assert [c, d][1..] == [d];
    ExecOne(p, Step(p, s, c), d);
  }

  lemma ExecUpTo(p: Policy, s: System, calls: seq<Call>, n: nat)
    requires n < |calls|
    ensures Exec(p, s, calls[..n + 1]) == Step(p, Exec(p, s, calls[..n]), calls[n])
  {
    hide Step, Exec;
    assert calls[..n + 1] == calls[..n] + [calls[n]];
    ExecConcat(p, s, calls[..n], [calls[n]]);
    ExecOne(p, Exec(p, s, calls[..n]), calls[n]);
  }

  /** From a probing state a step keeps the probe, and admits nothing, exactly when it is no report. */
  lemma ProbingStep(p: Policy, s: System, c: Call, provider: string)
    requires Probing(s, provider)
    ensures Probing(Step(p, s, c), provider) <==> !Reports(c, provider)
    ensures !Reports(c, provider) ==> forall k: RateKey :: k.provider == provider ==> Step(p, s, c).Log(k) == s.Log(k)
  {
    hide Drop, Copies;
  }

  /** A probe lasts exactly until an outcome is reported for its provider, by whichever caller. */
  lemma ProbeLastsExactlyUntilAReport(p: Policy, s: System, calls: seq<Call>, provider: string)
    requires Probing(s, provider)
    ensures (forall n :: 0 <= n <= |calls| ==> Probing(Exec(p, s, calls[..n]), provider)) <==> NoReport(provider, calls)
  {
    hide Probing, Reports, Step;
    if NoReport(provider, calls) {
      forall n | 0 <= n <= |calls|
        ensures Probing(Exec(p, s, calls[..n]), provider)
      {
        ProbeLasts(p, s, calls, provider, n);
      }
    }
    if forall n :: 0 <= n <= |calls| ==> Probing(Exec(p, s, calls[..n]), provider) {
      forall i | 0 <= i < |calls|
        ensures !Reports(calls[i], provider)
      {
        assert Probing(Exec(p, s, calls[..i]), provider) && Probing(Exec(p, s, calls[..i + 1]), provider);
        ExecUpTo(p, s, calls, i);
        ProbingStep(p, Exec(p, s, calls[..i]), calls[i], provider);
      }
    }
  }

  lemma {:induction false} ProbeLasts(p: Policy, s: System, calls: seq<Call>, provider: string, n: nat)
    requires Probing(s, provider) && NoReport(provider, calls) && n <= |calls|
    ensures Probing(Exec(p, s, calls[..n]), provider)
    ensures forall k: RateKey :: k.provider == provider ==> Exec(p, s, calls[..n]).Log(k) == s.Log(k)
  {
    hide Probing, Reports, Step;
    if n > 0 {
      ProbeLasts(p, s, calls, provider, n - 1);
      ExecUpTo(p, s, calls, n - 1);
      ProbingStep(p, Exec(p, s, calls[..n - 1]), calls[n - 1], provider);
    } else {
      assert calls[..0] == [];
    }
  }

  /** Until then nobody else is admitted. */
  lemma ProbeIsAloneUntilAReport(p: Policy, s: System, calls: seq<Call>, k: RateKey)
    requires Probing(s, k.provider) && NoReport(k.provider, calls)
    ensures Exec(p, s, calls).Log(k) == s.Log(k)
  {
    hide Probing, Exec;
    ProbeLasts(p, s, calls, k.provider, |calls|);
    assert calls[..|calls|] == calls;
  }

  /** The quota has room for the operation at `t`. */
  predicate Fits(p: Policy, s: System, k: RateKey, operation: Capability, t: real) {
    |Drop(s.state.Window(k), t - p.window)| + RateCost(operation) <= p.limit
  }

  /** When the circuit lets calls through again after a report that ends a probe. */
  predicate OpenAgain(p: Policy, c: Circuit, report: Call, t: real)
    requires c.openedAt.Some?
  {
    match report
    case Success(_) => true
    case Failure(_, counts, now) =>
      t - (if counts && c.failures + 1 >= p.failureThreshold then now else c.openedAt.value) >= p.openSeconds
    case _ => t - c.openedAt.value >= p.openSeconds
  }

  /**
   * After the report the next call is admitted exactly when the quota has room and the open period
   * is over; a failure that does not count, or a release, does not start a new open period. Nothing
   * asks whether the reporting caller was the probe.
   */
  lemma ReportAdmitsTheNextCall(p: Policy, s: System, report: Call, k: RateKey, operation: Capability, t: real)
    requires Probing(s, k.provider) && Reports(report, k.provider)
    ensures var s1 := Step(p, s, report);
            var admitted := OpenAgain(p, s.state.CircuitOf(k.provider), report, t) && Fits(p, s, k, operation, t);
            && (Guarded(p, s1.state, k, RateCost(operation), t).1.Admitted? <==> admitted)
            && Step(p, s1, Before(k, operation, t)).Log(k) == s.Log(k) + if admitted then Copies(t, RateCost(operation)) else []
  {
    hide Drop, Copies, RateCost;
  }

  // ---------------------------------------------------------------------------------------------
  // Callers

  /** One attempt of a caller: the admission test, and when it refuses, the report of that refusal. */
  datatype Try = Try(key: RateKey, operation: Capability, now: real)

  function VerdictOn(p: Policy, s: System, t: Try): Verdict {
    Guarded(p, s.state, t.key, RateCost(t.operation), t.now).1
  }

  /** Both refusals are reported as failures that do not count. */
  function CallsOf(p: Policy, s: System, t: Try): seq<Call> {
    var before := Before(t.key, t.operation, t.now);
    if VerdictOn(p, s, t).Admitted? then [before] else [before, Failure(t.key.provider, false, t.now)]
  }

  function AfterTries(p: Policy, s: System, tries: seq<Try>): System {
    if tries == [] then s
    else
      var before := AfterTries(p, s, tries[..|tries| - 1]);
      Exec(p, before, CallsOf(p, before, tries[|tries| - 1]))
  }

  /** Whether another attempt on the provider comes in while the probe is out. */
  predicate NobodyElseTries(provider: string, tries: seq<Try>) {
    forall i :: 0 <= i < |tries| ==> tries[i].key.provider != provider
  }

  lemma TryOnProbing(p: Policy, s: System, t: Try, provider: string)
    requires Probing(s, provider)
    ensures Probing(Exec(p, s, CallsOf(p, s, t)), provider) <==> t.key.provider != provider
    ensures t.key.provider == provider ==> VerdictOn(p, s, t) == CircuitOpen
    ensures t.key.provider == provider ==>
              var s1 := Exec(p, s, CallsOf(p, s, t));
              && s1.log == s.log && s1.state.windows == s.state.windows
              && s1.state.CircuitOf(provider) == s.state.CircuitOf(provider).(halfOpenInflight := false)
  {
    var before := Before(t.key, t.operation, t.now);
    ExecOne(p, s, before);
    ExecTwo(p, s, before, Failure(t.key.provider, false, t.now));
    hide Exec, Drop, Copies;
  }

  /**
   * A probe is undisturbed until its own outcome exactly when nobody else tries the provider: the
   * refusal of the first other caller already ends it.
   */
  lemma ProbeIsUndisturbedIffNobodyElseTries(p: Policy, s: System, tries: seq<Try>, provider: string)
    requires Probing(s, provider)
    ensures (forall n :: 0 <= n <= |tries| ==> Probing(AfterTries(p, s, tries[..n]), provider)) <==> NobodyElseTries(provider, tries)
  {
    hide Probing, CallsOf, Exec, VerdictOn;
    if NobodyElseTries(provider, tries) {
      forall n | 0 <= n <= |tries|
        ensures Probing(AfterTries(p, s, tries[..n]), provider)
      {
        UndisturbedProbe(p, s, tries, provider, n);
      }
    }
    if forall n :: 0 <= n <= |tries| ==> Probing(AfterTries(p, s, tries[..n]), provider) {
      forall i | 0 <= i < |tries|
        ensures tries[i].key.provider != provider
      {
        assert Probing(AfterTries(p, s, tries[..i]), provider) && Probing(AfterTries(p, s, tries[..i + 1]), provider);
        assert tries[..i + 1][..i] == tries[..i];
        TryOnProbing(p, AfterTries(p, s, tries[..i]), tries[i], provider);
      }
    }
  }

  lemma {:induction false} UndisturbedProbe(p: Policy, s: System, tries: seq<Try>, provider: string, n: nat)
    requires Probing(s, provider) && NobodyElseTries(provider, tries) && n <= |tries|
    ensures Probing(AfterTries(p, s, tries[..n]), provider)
  {
    hide Probing, CallsOf, Exec, VerdictOn;
    if n > 0 {
      UndisturbedProbe(p, s, tries, provider, n - 1);
      assert tries[..n][..n - 1] == tries[..n - 1];
      TryOnProbing(p, AfterTries(p, s, tries[..n - 1]), tries[n - 1], provider);
    }
  }

  /** The attempts all name the provider, come after its open period, and find room in the quota. */
  ghost predicate Eager(p: Policy, s: System, provider: string, since: real, tries: seq<Try>) {
    forall i :: 0 <= i < |tries| ==>
      && tries[i].key.provider == provider
      && tries[i].now - since >= p.openSeconds
      && Fits(p, AfterTries(p, s, tries[..i]), tries[i].key, tries[i].operation, tries[i].now)
  }

  lemma TryOnEnded(p: Policy, s: System, t: Try, since: real)
    requires s.state.CircuitOf(t.key.provider).openedAt == Some(since) && !Probing(s, t.key.provider)
    requires t.now - since >= p.openSeconds && Fits(p, s, t.key, t.operation, t.now)
    ensures VerdictOn(p, s, t) == Admitted
    ensures var s1 := Exec(p, s, CallsOf(p, s, t));
            Probing(s1, t.key.provider) && s1.state.CircuitOf(t.key.provider).openedAt == Some(since)
  {
    ExecOne(p, s, Before(t.key, t.operation, t.now));
    hide Exec, Drop, Copies;
  }

  /**
   * While one probe is out, every second of the other attempts is let through beside it: each
   * refusal clears the flag that the next admission sets.
   */
  lemma {:induction false} EverySecondTryIsLetThrough(p: Policy, s: System, provider: string, since: real, tries: seq<Try>, n: nat)
    requires Probing(s, provider) && s.state.CircuitOf(provider).openedAt == Some(since)
    requires Eager(p, s, provider, since, tries) && n <= |tries|
    ensures var s1 := AfterTries(p, s, tries[..n]);
            && (Probing(s1, provider) <==> n % 2 == 0)
            && s1.state.CircuitOf(provider).openedAt == Some(since)
            && (n < |tries| ==> VerdictOn(p, s1, tries[n]) == if n % 2 == 0 then CircuitOpen else Admitted)
  {
    hide CallsOf, Exec, VerdictOn, Fits;
    if n > 0 {
      EverySecondTryIsLetThrough(p, s, provider, since, tries, n - 1);
      var before := AfterTries(p, s, tries[..n - 1]);
      assert tries[..n][..n - 1] == tries[..n - 1];
      if n % 2 == 1 {
        TryOnProbing(p, before, tries[n - 1], provider);
      } else {
        TryOnEnded(p, before, tries[n - 1], since);
      }
    }
    var now := AfterTries(p, s, tries[..n]);
    if n < |tries| {
      if n % 2 == 0 {
        TryOnProbing(p, now, tries[n], provider);
      } else {
        TryOnEnded(p, now, tries[n], since);
      }
    }
  }

  // ---------------------------------------------------------------------------------------------
  // A run with two probes at once

  const SAMPLE_POLICY := Policy(60, 60.0, 3, 30.0)

  /** Three calls that fail and count, then a probe, a refused caller with its report, and one more caller. */
  function SampleRun(k: RateKey): seq<Call> {
    var failing := [Before(k, Weather, 0.0), Failure(k.provider, true, 0.0)];
    failing + failing + failing
    + [Before(k, Weather, 30.0), Before(k, Weather, 30.0), Failure(k.provider, false, 30.0), Before(k, Weather, 30.0)]
  }

  predicate AfterRounds(s: System, k: RateKey, n: nat) {
    && s.Log(k) == Copies(0.0, n) && s.state.Window(k) == Copies(0.0, n)
    && s.state.CircuitOf(k.provider) == Circuit(n, if n == 3 then Some(0.0) else None, false)
  }

  lemma FailingRound(s: System, k: RateKey, n: nat)
    requires n < 3 && AfterRounds(s, k, n)
    ensures AfterRounds(Step(SAMPLE_POLICY, Step(SAMPLE_POLICY, s, Before(k, Weather, 0.0)), Failure(k.provider, true, 0.0)), k, n + 1)
  {
    NothingExpired(Copies(0.0, n), 0.0 - 60.0);
    hide Drop;
    assert Copies(0.0, n) + Copies(0.0, 1) == Copies(0.0, n + 1);
  }

  lemma {:induction false} Failing(k: RateKey, n: nat)
    requires n <= 3
    ensures AfterRounds(Exec(SAMPLE_POLICY, Start(0.0), SampleRun(k)[..2 * n]), k, n)
  {
    var p, run := SAMPLE_POLICY, SampleRun(k);
    if n == 0 {
      assert run[..0] == [];
    } else {
      assert run[2 * n - 2] == Before(k, Weather, 0.0) && run[2 * n - 1] == Failure(k.provider, true, 0.0);
      hide Exec, Step, AfterRounds, SampleRun;
      Failing(k, n - 1);
      ExecUpTo(p, Start(0.0), run, 2 * n - 2);
      ExecUpTo(p, Start(0.0), run, 2 * n - 1);
      FailingRound(Exec(p, Start(0.0), run[..2 * n - 2]), k, n - 1);
    }
  }

  lemma NothingExpired(w: seq<real>, cutoff: real)
    requires forall i :: 0 <= i < |w| ==> w[i] > cutoff
    ensures Drop(w, cutoff) == w
  {
  }

  /** The fourth call probes the circuit that the three failures opened. */
  lemma SampleProbe(k: RateKey)
    ensures var s := Exec(SAMPLE_POLICY, Start(0.0), SampleRun(k)[..7]);
            && s.state.CircuitOf(k.provider) == Circuit(3, Some(0.0), true)
            && s.Log(k) == [0.0, 0.0, 0.0, 30.0] && s.state.Window(k) == [0.0, 0.0, 0.0, 30.0]
  {
    var p, run := SAMPLE_POLICY, SampleRun(k);
    Failing(k, 3);
    var s := Exec(p, Start(0.0), run[..6]);
    assert run[6] == Before(k, Weather, 30.0);
    ExecUpTo(p, Start(0.0), run, 6);
    NothingExpired(s.state.Window(k), 30.0 - 60.0);
    hide Exec, Drop;
    assert Copies(0.0, 3) + Copies(30.0, 1) == [0.0, 0.0, 0.0, 30.0];
  }

  /** From an empty gateway: the refused caller's report lets a second probe in beside the first, which has not reported. */
  lemma RefusedCallerEndsTheProbe(k: RateKey)
    ensures var run := SampleRun(k);
            && Monotone(0.0, run)
            && Probing(Exec(SAMPLE_POLICY, Start(0.0), run[..7]), k.provider)
            && Exec(SAMPLE_POLICY, Start(0.0), run[..8]).log == Exec(SAMPLE_POLICY, Start(0.0), run[..7]).log
            && Exec(SAMPLE_POLICY, Start(0.0), run).Log(k) == [0.0, 0.0, 0.0, 30.0, 30.0]
  {
    var p, run := SAMPLE_POLICY, SampleRun(k);
    var s, refused := Exec(p, Start(0.0), run[..7]), Exec(p, Start(0.0), run[..8]);
    SampleIsMonotone(k);
    SampleProbe(k);
    assert run[7] == Before(k, Weather, 30.0) && run[8] == Failure(k.provider, false, 30.0) && run[9] == Before(k, Weather, 30.0);
    ExecUpTo(p, Start(0.0), run, 7);
    ExecUpTo(p, Start(0.0), run, 8);
    ExecUpTo(p, Start(0.0), run, 9);
    assert run[..10] == run;
    hide Exec, Monotone, SampleRun, Drop;
    assert refused.state == s.state && refused.log == s.log;
    NothingExpired(s.state.Window(k), 30.0 - 60.0);
    hide Step, Copies;
    ReportAdmitsTheNextCall(p, refused, run[8], k, Weather, 30.0);
  }

  lemma SampleIsMonotone(k: RateKey)
    ensures Monotone(0.0, SampleRun(k))
  {
    MonotoneByIndex(0.0, SampleRun(k));
  }

  lemma {:induction false} MonotoneByIndex(clock: real, calls: seq<Call>)
    requires forall i :: 0 <= i < |calls| ==> calls[i].Before? || calls[i].Failure?
    requires forall i :: 0 <= i < |calls| ==> clock <= Reading(calls[i], 0.0)
    requires forall i, j :: 0 <= i < j < |calls| ==> Reading(calls[i], 0.0) <= Reading(calls[j], 0.0)
    ensures Monotone(clock, calls)
    decreases |calls|
  {
    if calls != [] {
      assert calls[0].Before? || calls[0].Failure?;
      MonotoneByIndex(Reading(calls[0], clock), calls[1..]);
    }
  }
}
