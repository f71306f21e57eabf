/**
 The MTProto watchdog: sleep, probe, record what the probe saw, and alert when the health
 verdict changes. Times are in milliseconds; what a probe meets and how long it takes are
 given, cycle by cycle.
 */
module Watchdog {
  import opened Options

  const INTERVAL := 30_000
  const STALE := 3 * INTERVAL
  const MAX_BACKOFF := 300_000

  /** The call that raised: `is_connected`, `is_user_authorized` or `get_me`. */
  datatype Call = Connected | Authorized | Ping

  datatype Probe =
    | Succeeds
    | Disconnected
    | Unauthorized
    | Raises(during: Call) // flood wait, or any error that is not fatal
    | Fatal(amid: Call) // session revoked or account banned

  /** One turn of the loop: the probe's outcome, and the time spent beyond the sleep. */
  datatype Cycle = Cycle(probe: Probe, extra: nat)

  datatype Alert = Unhealthy | Recovered | Terminated

  /** The module-level liveness fields, `was_healthy`, the alerts attempted, and whether `_watchdog` has returned. */
  datatype State = State(now: nat, connected: bool, authorized: bool, lastOk: Option<nat>, failures: nat,
                         wasHealthy: Option<bool>, alerts: seq<Alert>, stopped: bool)

  function Pow2(n: nat): nat {
    if n == 0 then 1 else 2 * Pow2(n - 1)
  }

  function Min(a: nat, b: nat): nat {
    if a < b then a else b
  }

  /** How long the loop sleeps before its next probe. */
  function Backoff(failures: nat): nat {
    if failures > 0 then Min(INTERVAL * Pow2(Min(failures - 1, 4)), MAX_BACKOFF) else INTERVAL
  }

  /** `_is_mtproto_healthy`. */
  predicate Healthy(s: State) {
    s.connected && s.authorized && s.lastOk.Some? && s.now - s.lastOk.value <= STALE
  }

  /** Sleeping, probing, and recording: everything up to the verdict. */
  function Probed(s: State, c: Cycle): State {
    var t := s.(now := s.now + Backoff(s.failures) + c.extra);
    match c.probe
    case Succeeds => t.(connected := true, authorized := true, lastOk := Some(t.now), failures := 0)
    case Disconnected => t.(connected := false, failures := t.failures + 1)
    case Unauthorized => t.(connected := true, authorized := false, failures := t.failures + 1)
    case Raises(call) => Recorded(t, call).(failures := t.failures + 1)
    case Fatal(call) =>
      Recorded(t, call).(failures := t.failures + 1, alerts := t.alerts + [Terminated], stopped := true)
  }

  /** What the calls before the one that raised had already recorded. */
  function Recorded(s: State, call: Call): State {
    match call
    case Connected => s
    case Authorized => s.(connected := true)
    case Ping => s.(connected := true, authorized := true)
  }

  function Judged(s: State): State {
    var healthy := Healthy(s);
    var news := if s.wasHealthy == Some(true) && !healthy then [Unhealthy]
                else if s.wasHealthy == Some(false) && healthy then [Recovered]
                else [];
    s.(wasHealthy := Some(healthy), alerts := s.alerts + news)
  }

  function Turn(s: State, c: Cycle): State {
    if s.stopped then s
    else if Probed(s, c).stopped then Probed(s, c)
    else Judged(Probed(s, c))
  }

  function Watch(s: State, cycles: seq<Cycle>): State {
    if cycles == [] then s else Turn(Watch(s, cycles[..|cycles| - 1]), cycles[|cycles| - 1])
  }

  /** As the loop starts: no failure counted, no verdict yet, nothing sent. */
  predicate Fresh(s: State) {
    s.failures == 0 && s.wasHealthy.None? && s.alerts == [] && !s.stopped &&
    (s.lastOk.Some? ==> s.lastOk.value <= s.now)
  }

  // ---- The loop ----

  class Userbot {
    var now: nat
    var connected: bool
    var authorized: bool
    var lastOk: Option<nat>
    var failures: nat
    var wasHealthy: Option<bool>
    var alerts: seq<Alert>
    var stopped: bool

    /** `run()` has connected, authorised and pinged once before it starts the loop. */
    constructor (now: nat, connected: bool)
      ensures View() == State(now, connected, true, Some(now), 0, None, [], false)
    {
      this.now, this.connected, authorized, lastOk, failures := now, connected, true, Some(now), 0;
      wasHealthy, alerts, stopped := None, [], false;
    }

    ghost function View(): State
      reads this
    {
      State(now, connected, authorized, lastOk, failures, wasHealthy, alerts, stopped)
    }

    predicate IsHealthy()
      reads this
      ensures IsHealthy() == Healthy(View())
    {
      connected && authorized && lastOk.Some? && now - lastOk.value <= STALE
    }

    method Sleep(time: nat)
      modifies this`now
      ensures now == old(now) + time
    {
      now := now + time;
    }

    method Fail()
      modifies this`failures
      ensures failures == old(failures) + 1
    {
      failures := failures + 1;
    }

    /** The calls in order, each able to raise; the liveness fields change as each answers. */
    method Probe(c: Cycle)
      requires !stopped
      modifies this
      ensures View() == Probed(old(View()), c)
    {
      if failures > 0 {
        Sleep(Min(INTERVAL * Pow2(Min(failures - 1, 4)), MAX_BACKOFF));
      } else {
        Sleep(INTERVAL);
      }
      Sleep(c.extra);
      var raising :=
        if c.probe.Raises? then Some(c.probe.during) else if c.probe.Fatal? then Some(c.probe.amid) else None;
      if raising != Some(Connected) {
        connected := c.probe != Disconnected;
        if connected && raising != Some(Authorized) {
          authorized := c.probe != Unauthorized;
          if authorized && raising.None? {
            lastOk := Some(now);
            failures := 0;
            return;
          }
        }
      }
      Fail();
      if c.probe.Fatal? {
        alerts := alerts + [Terminated];
        stopped := true;
      }
    }

    method Judge()
      modifies this
      ensures View() == Judged(old(View()))
    {
      var healthy := IsHealthy();
      if wasHealthy.Some? {
        if wasHealthy.value && !healthy {
          alerts := alerts + [Unhealthy];
        } else if !wasHealthy.value && healthy {
          alerts := alerts + [Recovered];
        }
      }
      wasHealthy := Some(healthy);
    }

    /** `_watchdog` over as many cycles as the environment grants. */
    method Run(cycles: seq<Cycle>)
      modifies this
      ensures View() == Watch(old(View()), cycles)
    {
      for i := 0 to |cycles|
        invariant View() == Watch(old(View()), cycles[..i])
      {
        assert cycles[..i + 1][..i] == cycles[..i];
        if !stopped {
          Probe(cycles[i]);
          if !stopped {
            Judge();
          }
        }
      }
      assert cycles[..|cycles|] == cycles;
    }
  }

  // ---- Alerts are the edges of the verdicts ----

  /** The verdict after each cycle, as long as no fatal error stopped the loop. */
  function Verdicts(s: State, cycles: seq<Cycle>): seq<bool> {
    if cycles == [] then []
    else
      var rest := cycles[..|cycles| - 1];
      Verdicts(s, rest) + if Watch(s, cycles).stopped then [] else [Healthy(Watch(s, cycles))]
  }

  function Edge(before: bool, after: bool): seq<Alert> {
    if before == after then [] else if after then [Recovered] else [Unhealthy]
  }

  /** One alert for each verdict that differs from the one before it. */
  function Edges(verdicts: seq<bool>): seq<Alert> {
    if |verdicts| < 2 then []
    else Edges(verdicts[..|verdicts| - 1]) + Edge(verdicts[|verdicts| - 2], verdicts[|verdicts| - 1])
  }

  lemma TurnAlerts(s: State, c: Cycle)
    requires !s.stopped
    ensures var t := Turn(s, c);
      && (t.stopped ==> t.alerts == s.alerts + [Terminated] && t.wasHealthy == s.wasHealthy)
      && (!t.stopped ==> t.wasHealthy == Some(Healthy(t)))
      && (!t.stopped && s.wasHealthy.None? ==> t.alerts == s.alerts)
      && (!t.stopped && s.wasHealthy.Some? ==> t.alerts == s.alerts + Edge(s.wasHealthy.value, Healthy(t)))
  {
  }

  lemma EdgesNext(verdicts: seq<bool>, next: bool)
    ensures Edges(verdicts + [next])
         == if verdicts == [] then [] else Edges(verdicts) + Edge(verdicts[|verdicts| - 1], next)
  {
    assert (verdicts + [next])[..|verdicts|] == verdicts;
  }

  predicate Told(s: State, verdicts: seq<bool>) {
    && s.alerts == Edges(verdicts) + (if s.stopped then [Terminated] else [])
    && s.wasHealthy == if verdicts == [] then None else Some(verdicts[|verdicts| - 1])
  }

  lemma ToldNext(s: State, c: Cycle, verdicts: seq<bool>)
    requires !s.stopped && Told(s, verdicts)
    ensures var t := Turn(s, c); Told(t, verdicts + if t.stopped then [] else [Healthy(t)])
  {
    TurnAlerts(s, c);
    EdgesNext(verdicts, Healthy(Turn(s, c)));
    hide Edges;
    hide Turn;
    assert verdicts + [] == verdicts;
  }

  /** The alerts attempted are the edges of the verdicts, then the fatal one if there was one. */
  lemma {:induction false} AlertsAreEdges(s: State, cycles: seq<Cycle>)
    requires Fresh(s)
    ensures Told(Watch(s, cycles), Verdicts(s, cycles))
  {
    if cycles != [] {
      var rest := cycles[..|cycles| - 1];
      AlertsAreEdges(s, rest);
      var before := Watch(s, rest);
      if before.stopped {
        assert Verdicts(s, rest) + [] == Verdicts(s, rest);
      } else {
        ToldNext(before, cycles[|cycles| - 1], Verdicts(s, rest));
      }
    }
  }

  predicate Alternates(alerts: seq<Alert>) {
    && (forall i :: 0 < i < |alerts| ==> alerts[i] != alerts[i - 1])
    && (forall i :: 0 <= i < |alerts| - 1 ==> alerts[i] != Terminated)
  }

  lemma AlternatesNext(alerts: seq<Alert>, next: Alert)
    requires Alternates(alerts) && Terminated !in alerts && (alerts != [] ==> next != alerts[|alerts| - 1])
    ensures Alternates(alerts + [next])
  {
  }

  lemma {:induction false} EdgesAlternate(verdicts: seq<bool>)
    ensures var edges := Edges(verdicts);
      && Alternates(edges) && Terminated !in edges
      && (edges != [] ==> edges[|edges| - 1] == if verdicts[|verdicts| - 1] then Recovered else Unhealthy)
  {
    if |verdicts| >= 2 {
      var rest := verdicts[..|verdicts| - 1];
      EdgesAlternate(rest);
      EdgesNext(rest, verdicts[|verdicts| - 1]);
      assert rest + [verdicts[|verdicts| - 1]] == verdicts;
      hide Edges;
      if verdicts[|verdicts| - 1] != verdicts[|verdicts| - 2] {
        AlternatesNext(Edges(rest), if verdicts[|verdicts| - 1] then Recovered else Unhealthy);
      }
    }
  }

  /** Over every probe sequence alerts alternate between unhealthy and recovered, a fatal one only last. */
  lemma AlertsAlternate(s: State, cycles: seq<Cycle>)
    requires Fresh(s)
    ensures Alternates(Watch(s, cycles).alerts)
  {
    AlertsAreEdges(s, cycles);
    EdgesAlternate(Verdicts(s, cycles));
  }

  // ---- Backoff ----

  predicate Failing(cycles: seq<Cycle>) {
    forall i :: 0 <= i < |cycles| ==> !cycles[i].probe.Succeeds?
  }

  lemma PowersOfTwo()
    ensures Pow2(0) == 1 && Pow2(1) == 2 && Pow2(2) == 4 && Pow2(3) == 8 && Pow2(4) == 16
  {
    assert Pow2(1) == 2 * Pow2(0);
    assert Pow2(2) == 2 * Pow2(1);
    assert Pow2(3) == 2 * Pow2(2);
    assert Pow2(4) == 2 * Pow2(3);
  }

  /** Between half a minute and five, never shorter after one more failure: 30, 30, 60, 120, 240, then 300. */
  lemma BackoffGrows(failures: nat)
    ensures 30_000 <= Backoff(failures) <= Backoff(failures + 1) <= 300_000
    ensures Backoff(0) == Backoff(1) == 30_000 && Backoff(2) == 60_000 && Backoff(3) == 120_000 && Backoff(4) == 240_000
    ensures failures > 4 ==> Backoff(failures) == 300_000
  {
    PowersOfTwo();
    if failures == 1 || failures == 2 || failures == 3 || failures == 4 {
      assert Min(failures - 1, 4) == failures - 1;
    }
  }

  lemma FailingTurn(s: State, c: Cycle)
    requires !s.stopped && !c.probe.Succeeds?
    ensures var t := Turn(s, c);
      t.lastOk == s.lastOk && t.failures == s.failures + 1 && t.now >= s.now + Backoff(s.failures)
  {
  }

  /** The sleep before probe `i` of a failing sequence. */
  function SleepBefore(s: State, cycles: seq<Cycle>, i: nat): nat
    requires i <= |cycles|
  {
    Backoff(Watch(s, cycles[..i]).failures)
  }

  /** While probes fail the sleeps never shrink, and stay within half a minute and five. */
  lemma {:induction false} SleepsGrow(s: State, cycles: seq<Cycle>, i: nat, k: nat)
    requires Failing(cycles) && i <= k <= |cycles|
    ensures 30_000 <= SleepBefore(s, cycles, i) <= SleepBefore(s, cycles, k) <= 300_000
  {
    if i == k {
      BackoffGrows(Watch(s, cycles[..k]).failures);
    } else {
      SleepsGrow(s, cycles, i, k - 1);
      var before := Watch(s, cycles[..k - 1]);
      assert cycles[..k][..k - 1] == cycles[..k - 1];
      if !before.stopped { FailingTurn(before, cycles[k - 1]); }
      BackoffGrows(before.failures);
      hide Backoff;
      hide Turn;
    }
  }

  // ---- How soon a dead connection is noticed ----

  lemma {:induction false} FailingStreak(s: State, cycles: seq<Cycle>)
    requires !s.stopped && s.failures == 0 && Failing(cycles)
    ensures var t := Watch(s, cycles);
      && t.lastOk == s.lastOk && t.now >= s.now
      && (!t.stopped ==> t.failures == |cycles|)
      && (|cycles| >= 1 && !t.stopped ==> t.now >= s.now + INTERVAL)
      && (|cycles| >= 2 && !t.stopped ==> t.now >= s.now + 2 * INTERVAL)
      && (|cycles| >= 3 && !t.stopped ==> t.now >= s.now + 4 * INTERVAL)
  {
    if cycles != [] {
      var rest := cycles[..|cycles| - 1];
      FailingStreak(s, rest);
      BackoffGrows(|rest|);
      if !Watch(s, rest).stopped {
        FailingTurn(Watch(s, rest), cycles[|cycles| - 1]);
      }
      hide Backoff;
      hide Turn;
    }
  }

  /** After a success every verdict from the third failing probe on, until the next success, is unhealthy. */
  lemma NoticedByThird(s: State, c: Cycle, cycles: seq<Cycle>)
    requires !s.stopped && c.probe.Succeeds? && Failing(cycles) && |cycles| >= 3
    ensures var t := Watch(Turn(s, c), cycles); t.stopped || t.wasHealthy == Some(false)
  {
    var first := Turn(s, c);
    SuccessIsHealthy(s, c);
    StreakUnhealthy(first, cycles);
  }

  /** Two failing probes can go unnoticed: the bound of three is exact. */
  lemma TwoMayPass()
    ensures var s := State(0, true, true, Some(0), 0, None, [], false);
      var ping := Cycle(Raises(Ping), 0);
      Watch(s, [Cycle(Succeeds, 0), ping, ping]).wasHealthy == Some(true)
  {
    var s := State(0, true, true, Some(0), 0, None, [], false);
    var ping := Cycle(Raises(Ping), 0);
    BackoffGrows(0);
    var one, two, three := [Cycle(Succeeds, 0)], [Cycle(Succeeds, 0), ping], [Cycle(Succeeds, 0), ping, ping];
    assert one[..0] == [] && two[..1] == one && three[..2] == two;
    assert Watch(s, one) == Turn(s, Cycle(Succeeds, 0));
  }

  // ---- What a healthy verdict means ----

  /** The last thing the probes saw of the connection, and of the authorisation. */
  predicate SeenConnected(s: State, cycles: seq<Cycle>) {
    if cycles == [] then s.connected
    else
      match cycles[|cycles| - 1].probe
      case Disconnected => false
      case Raises(Connected) => SeenConnected(s, cycles[..|cycles| - 1])
      case Fatal(Connected) => SeenConnected(s, cycles[..|cycles| - 1])
      case _ => true
  }

  predicate SeenAuthorized(s: State, cycles: seq<Cycle>) {
    if cycles == [] then s.authorized
    else
      match cycles[|cycles| - 1].probe
      case Succeeds => true
      case Raises(Ping) => true
      case Fatal(Ping) => true
      case Unauthorized => false
      case _ => SeenAuthorized(s, cycles[..|cycles| - 1])
  }

  /** When the last success came, counting the one before the loop started. */
  function LastSuccess(s: State, cycles: seq<Cycle>): Option<nat> {
    if cycles == [] then s.lastOk
    else if cycles[|cycles| - 1].probe.Succeeds? then Some(Watch(s, cycles).now)
    else LastSuccess(s, cycles[..|cycles| - 1])
  }

  /** Healthy means: last seen connected, last seen authorised, and a success within ninety seconds. */
  lemma {:induction false} HealthyMeans(s: State, cycles: seq<Cycle>)
    requires !s.stopped && !Watch(s, cycles).stopped
    ensures var t := Watch(s, cycles);
      var success := LastSuccess(s, cycles);
      Healthy(t) <==>
        SeenConnected(s, cycles) && SeenAuthorized(s, cycles) && success.Some? && t.now - success.value <= 90_000
  {
    FieldsMean(s, cycles);
  }

  lemma {:induction false} FieldsMean(s: State, cycles: seq<Cycle>)
    requires !s.stopped && !Watch(s, cycles).stopped
    ensures var t := Watch(s, cycles);
      && t.connected == SeenConnected(s, cycles)
      && t.authorized == SeenAuthorized(s, cycles)
      && t.lastOk == LastSuccess(s, cycles)
  {
    if cycles != [] {
      FieldsMean(s, cycles[..|cycles| - 1]);
    }
  }

  // ---- When a recovery is announced without a success ----

  /**
   The first failing probe saw the connection or the authorisation gone (or could not look
   and left the connection recorded as gone), the second raised after seeing it back, and
   with the age of the last success they took no longer than ninety seconds.
   */
  predicate FalseRecovery(cycles: seq<Cycle>, age: int, connected: bool) {
    |cycles| >= 2 && age + cycles[0].extra + cycles[1].extra <= 30_000 &&
    match cycles[0].probe
    case Disconnected => cycles[1].probe == Raises(Authorized) || cycles[1].probe == Raises(Ping)
    case Unauthorized => cycles[1].probe == Raises(Ping)
    case Raises(Connected) => !connected && (cycles[1].probe == Raises(Authorized) || cycles[1].probe == Raises(Ping))
    case _ => false
  }

  /** As a success leaves the state, or as the loop finds it, whatever `is_connected` answered before. */
  predicate Steady(s: State) {
    !s.stopped && s.failures == 0 && s.lastOk.Some? && s.lastOk.value <= s.now && s.authorized &&
    s.wasHealthy != Some(false)
  }

  function Age(s: State): int
    requires s.lastOk.Some?
  {
    s.now - s.lastOk.value
  }

  lemma SuccessIsHealthy(s: State, c: Cycle)
    requires !s.stopped && c.probe.Succeeds?
    ensures var t := Turn(s, c); Steady(t) && Age(t) == 0 && t.connected && t.wasHealthy == Some(true)
  {
  }

  /** The alerts since `s`. */
  function News(s: State, cycles: seq<Cycle>): seq<Alert>
    requires s.alerts <= Watch(s, cycles).alerts
  {
    Watch(s, cycles).alerts[|s.alerts|..]
  }

  lemma {:induction false} AlertsGrow(s: State, cycles: seq<Cycle>)
    ensures s.alerts <= Watch(s, cycles).alerts
  {
    if cycles != [] {
      AlertsGrow(s, cycles[..|cycles| - 1]);
      var before := Watch(s, cycles[..|cycles| - 1]);
      if !before.stopped { TurnAlerts(before, cycles[|cycles| - 1]); }
    }
  }

  /** A turn announces a recovery exactly when the verdict goes from unhealthy to healthy. */
  lemma TurnRecovers(s: State, c: Cycle, from: nat)
    requires from <= |s.alerts|
    ensures var t := Turn(s, c);
      from <= |t.alerts| &&
      (Recovered in t.alerts[from..] <==>
         Recovered in s.alerts[from..] || (!s.stopped && !t.stopped && s.wasHealthy == Some(false) && Healthy(t)))
  {
    var t := Turn(s, c);
    if !s.stopped {
      TurnAlerts(s, c);
      hide Turn;
      hide Healthy;
      assert |s.alerts| <= |t.alerts| && t.alerts[from..] == s.alerts[from..] + t.alerts[|s.alerts|..];
    }
  }

  lemma FirstFailing(s: State, c: Cycle)
    requires Steady(s) && !c.probe.Succeeds?
    ensures var t := Turn(s, c);
      && t.lastOk == s.lastOk && t.failures == 1 && t.now == s.now + INTERVAL + c.extra
      && t.connected == (if c.probe == Disconnected then false
                         else if c.probe == Raises(Connected) || c.probe == Fatal(Connected) then s.connected else true)
      && t.authorized == (c.probe != Unauthorized)
      && (t.stopped <==> c.probe.Fatal?) && (!t.stopped ==> t.wasHealthy == Some(Healthy(t)))
  {
    BackoffGrows(0);
  }

  lemma SecondFailing(s: State, t: State, c: Cycle)
    requires Steady(s) && !t.stopped && t.failures == 1 && t.lastOk == s.lastOk && !c.probe.Succeeds?
    ensures var u := Turn(t, c);
      && u.lastOk == s.lastOk && u.now == t.now + INTERVAL + c.extra && (u.stopped <==> c.probe.Fatal?)
      && u.connected == (if c.probe == Disconnected then false
                         else if c.probe == Raises(Connected) || c.probe == Fatal(Connected) then t.connected else true)
      && u.authorized == (if c.probe == Unauthorized then false
                          else if c.probe == Raises(Ping) || c.probe == Fatal(Ping) then true else t.authorized)
  {
    BackoffGrows(0);
  }

  lemma SecondRecovers(s: State, c0: Cycle, c1: Cycle)
    requires Steady(s) && !c0.probe.Succeeds? && !c1.probe.Succeeds?
    ensures var t := Turn(s, c0); var u := Turn(t, c1);
      !t.stopped && !u.stopped && t.wasHealthy == Some(false) && Healthy(u) <==>
      FalseRecovery([c0, c1], Age(s), s.connected)
  {
    FirstFailing(s, c0);
    if !c0.probe.Fatal? { SecondFailing(s, Turn(s, c0), c1); }
    hide Turn;
  }

  lemma {:induction false} StreakRecovers(s: State, cycles: seq<Cycle>)
    requires Steady(s) && Failing(cycles)
    ensures s.alerts <= Watch(s, cycles).alerts
    ensures Recovered in News(s, cycles) <==> FalseRecovery(cycles, Age(s), s.connected)
  {
    AlertsGrow(s, cycles);
    if cycles != [] {
      var rest, last := cycles[..|cycles| - 1], cycles[|cycles| - 1];
      StreakRecovers(s, rest);
      TurnRecovers(Watch(s, rest), last, |s.alerts|);
      if |cycles| == 2 {
        TwoCycles(s, cycles);
        SecondRecovers(s, cycles[0], cycles[1]);
        assert [cycles[0], cycles[1]] == cycles;
      } else if |cycles| > 2 {
        StreakUnhealthy(s, cycles);
      } else {
        assert rest == [] && Watch(s, rest) == s;
      }
      hide Turn;
      hide Healthy;
    }
  }

  lemma TwoCycles(s: State, cycles: seq<Cycle>)
    requires |cycles| == 2
    ensures Watch(s, cycles[..1]) == Turn(s, cycles[0])
    ensures Watch(s, cycles) == Turn(Turn(s, cycles[0]), cycles[1])
  {
    assert cycles[..1][..0] == [];
    assert Watch(s, cycles[..1][..0]) == s;
    hide Turn;
  }

  /** From the third failing probe on the verdict is unhealthy. */
  lemma StreakUnhealthy(s: State, cycles: seq<Cycle>)
    requires !s.stopped && s.failures == 0 && s.lastOk.Some? && s.lastOk.value <= s.now
    requires Failing(cycles) && |cycles| >= 3
    ensures var t := Watch(s, cycles); t.stopped || (!Healthy(t) && t.wasHealthy == Some(false))
  {
    FailingStreak(s, cycles);
    assert Watch(s, cycles) == Turn(Watch(s, cycles[..|cycles| - 1]), cycles[|cycles| - 1]);
  }

  /**
   After a success, and for every failing probes that follow, a recovery is announced
   without a new success exactly in the one case of `FalseRecovery`.
   */
  lemma RecoveredExactly(s: State, c: Cycle, cycles: seq<Cycle>)
    requires !s.stopped && c.probe.Succeeds? && Failing(cycles)
    ensures var first := Turn(s, c);
      first.alerts <= Watch(first, cycles).alerts &&
      (Recovered in Watch(first, cycles).alerts[|first.alerts|..] <==> FalseRecovery(cycles, 0, true))
  {
    SuccessIsHealthy(s, c);
    StreakRecovers(Turn(s, c), cycles);
  }

  lemma {:induction false} AlertsKept(s: State, cycles: seq<Cycle>, k: nat)
    requires k <= |cycles|
    ensures Watch(s, cycles[..k]).alerts <= Watch(s, cycles).alerts
  {
    if k == |cycles| {
      assert cycles[..k] == cycles;
    } else {
      var rest := cycles[..|cycles| - 1];
      AlertsKept(s, rest, k);
      assert rest[..k] == cycles[..k];
      if !Watch(s, rest).stopped { TurnAlerts(Watch(s, rest), cycles[|cycles| - 1]); }
      hide Turn;
    }
  }

  /** The second cycle announces it, and the first announced nothing. */
  lemma RecoveredFirst(s: State, cycles: seq<Cycle>)
    requires Fresh(s) && Steady(s) && Failing(cycles) && FalseRecovery(cycles, Age(s), s.connected)
    ensures [Recovered] <= Watch(s, cycles).alerts
  {
    var two := cycles[..2];
    assert two[0] == cycles[0] && two[1] == cycles[1];
    TwoCycles(s, two);
    SecondRecovers(s, cycles[0], cycles[1]);
    assert [cycles[0], cycles[1]] == two;
    TurnAlerts(s, cycles[0]);
    TurnAlerts(Turn(s, cycles[0]), cycles[1]);
    AlertsKept(s, cycles, 2);
    hide Turn;
  }

  /**
   As the loop starts, with the ping of `run()` as last success, and for every failing
   probes: a recovery is announced, with nothing announced before it, exactly in that case
   or when `run()` recorded no connection and the first probe could not look.
   */
  lemma {:induction false} RecoveredAtStart(s: State, cycles: seq<Cycle>)
    requires Fresh(s) && s.authorized && s.lastOk.Some? && Failing(cycles)
    ensures var alerts := Watch(s, cycles).alerts;
      (Recovered in alerts <==> FalseRecovery(cycles, Age(s), s.connected)) &&
      (Recovered in alerts ==> alerts[0] == Recovered)
  {
    StreakRecovers(s, cycles);
    if FalseRecovery(cycles, Age(s), s.connected) { RecoveredFirst(s, cycles); }
    assert Watch(s, cycles).alerts[0..] == Watch(s, cycles).alerts;
  }

  /** Such a run: the connection drops, comes back, and the probe raises. */
  lemma RecoveredWithoutSuccess()
    ensures var s := State(0, true, true, Some(0), 0, None, [], false);
      Watch(s, [Cycle(Succeeds, 0), Cycle(Disconnected, 0), Cycle(Raises(Ping), 0)]).alerts == [Unhealthy, Recovered]
  {
    var s := State(0, true, true, Some(0), 0, None, [], false);
    BackoffGrows(0);
    var one, two := [Cycle(Succeeds, 0)], [Cycle(Succeeds, 0), Cycle(Disconnected, 0)];
    var three := two + [Cycle(Raises(Ping), 0)];
    assert one[..0] == [] && two[..1] == one && three[..2] == two;
    assert Watch(s, one) == Turn(s, Cycle(Succeeds, 0));
    assert three == [Cycle(Succeeds, 0), Cycle(Disconnected, 0), Cycle(Raises(Ping), 0)];
  }
}
