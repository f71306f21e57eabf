/**
 The fixed-window limiter on the authentication endpoints: a Redis counter per client key
 whose expiry is set, by a second command, when the counter reads one. Requests of any
 number of clients interleave between the two commands, and the second may never arrive.
 */
module RateLimit {
  import opened Options

  /** `limit` requests per `window` milliseconds. */
  datatype Rule = Rule(limit: nat, window: nat)

  /** A counter; `start` records when its first increment came. */
  datatype Counter = Counter(count: nat, start: nat, deadline: Option<nat>)

  /** A request let through, when it was counted, and the start of the counter that counted it. */
  datatype Admission = Admission(key: string, at: nat, start: nat)

  datatype State = State(now: nat, counters: map<string, Counter>, admitted: seq<Admission>)

  const EMPTY := State(0, map[], [])

  datatype Action =
    | Tick(elapsed: nat)
    | Incr(key: string)
    | Expire(key: string)
    | Drop(key: string) // Redis removes a key at or after its deadline, not before

  function Count(s: State, key: string): nat {
    if key in s.counters then s.counters[key].count else 0
  }

  function Step(r: Rule, s: State, a: Action): State {
    match a
    case Tick(d) => s.(now := s.now + d)
    case Incr(key) =>
      var c := if key in s.counters then s.counters[key].(count := Count(s, key) + 1) else Counter(1, s.now, None);
      s.(counters := s.counters[key := c],
         admitted := s.admitted + if c.count <= r.limit then [Admission(key, s.now, c.start)] else [])
    case Expire(key) =>
      if key in s.counters then
        s.(counters := s.counters[key := s.counters[key].(deadline := Some(s.now + r.window))])
      else s
    case Drop(key) =>
      if key in s.counters && s.counters[key].deadline.Some? && s.counters[key].deadline.value <= s.now then
        s.(counters := s.counters - {key})
      else s
  }

  function Run(r: Rule, s: State, trace: seq<Action>): State
    decreases |trace|
  {
    if trace == [] then s else Run(r, Step(r, s, trace[0]), trace[1..])
  }

  lemma {:induction false} RunConcat(r: Rule, s: State, a: seq<Action>, b: seq<Action>)
    ensures Run(r, s, a + b) == Run(r, Run(r, s, a), b)
    decreases |a|
  {
    if a == [] {
      assert a + b == b;
    } else {
      assert (a + b)[1..] == a[1..] + b;
      RunConcat(r, Step(r, s, a[0]), a[1..], b);
    }
  }

  // ---- The middleware ----

  class Limiter {
    const rule: Rule
    var now: nat
    var counters: map<string, Counter>
    var admitted: seq<Admission>

    constructor (rule: Rule)
      ensures this.rule == rule && View() == EMPTY
    {
      this.rule := rule;
      now, counters, admitted := 0, map[], [];
    }

    ghost function View(): State
      reads this
    {
      State(now, counters, admitted)
    }

    /** One Redis command, or time passing. */
    method Perform(a: Action) returns (n: nat)
      modifies this
      ensures View() == Step(rule, old(View()), a)
      ensures a.Incr? ==> n == Count(View(), a.key)
    {
      n := 0;
      match a
      case Tick(d) =>
        now := now + d;
      case Incr(key) =>
        var c := if key in counters then counters[key].(count := counters[key].count + 1) else Counter(1, now, None);
        counters := counters[key := c];
        if c.count <= rule.limit {
          admitted := admitted + [Admission(key, now, c.start)];
        }
        n := c.count;
      case Expire(key) =>
        if key in counters {
          counters := counters[key := counters[key].(deadline := Some(now + rule.window))];
        }
      case Drop(key) =>
        if key in counters && counters[key].deadline.Some? && counters[key].deadline.value <= now {
          counters := counters - {key};
        }
    }

    method Meanwhile(others: seq<Action>)
      modifies this
      ensures View() == Run(rule, old(View()), others)
    {
      for i := 0 to |others|
        invariant View() == Run(rule, old(View()), others[..i])
      {
        assert others[..i + 1] == others[..i] + [others[i]];
        RunConcat(rule, old(View()), others[..i], [others[i]]);
        var _ := Perform(others[i]);
      }
      assert others[..|others|] == others;
    }

    /**
     The handler: count, set the expiry on the first count, refuse above the limit. Other
     clients act between the two commands; the second may be lost; a failing increment
     lets the request through uncounted.
     */
    method Handle(key: string, reachable: bool, others: seq<Action>, arrives: bool) returns (pass: bool)
      modifies this
      ensures !reachable ==> pass && View() == old(View())
      ensures reachable ==> (pass <==> Count(old(View()), key) < rule.limit)
      ensures reachable ==> View() == Run(rule, old(View()),
          [Incr(key)] + if Count(old(View()), key) == 0 then others + (if arrives then [Expire(key)] else []) else [])
    {
      pass := true;
      if reachable {
        ghost var start := View();
        var n := Perform(Incr(key));
        ghost var counted := View();
        assert counted == Run(rule, start, [Incr(key)]);
        if n == 1 {
          Meanwhile(others);
          RunConcat(rule, start, [Incr(key)], others);
          if arrives {
            RunConcat(rule, start, [Incr(key)] + others, [Expire(key)]);
            var _ := Perform(Expire(key));
            assert [Incr(key)] + others + [Expire(key)] == [Incr(key)] + (others + [Expire(key)]);
          } else {
            assert others + [] == others;
          }
        } else {
          assert [Incr(key)] + [] == [Incr(key)];
        }
        pass := n <= rule.limit;
      }
    }
  }

  // ---- What holds in every state ----

  /** Admissions of `key` by the counter that started at `start`. */
  function AdmittedBy(log: seq<Admission>, key: string, start: nat): nat {
    if log == [] then 0
    else
      var last := log[|log| - 1];
      AdmittedBy(log[..|log| - 1], key, start) + if last.key == key && last.start == start then 1 else 0
  }

  predicate Within(a: Admission, key: string, from: nat, until: nat) {
    a.key == key && from <= a.at < until
  }

  /** Admissions of `key` at or after `from` and before `until`. */
  function AdmittedWithin(log: seq<Admission>, key: string, from: nat, until: nat): nat {
    if log == [] then 0
    else
      var last := log[|log| - 1];
      AdmittedWithin(log[..|log| - 1], key, from, until) + if Within(last, key, from, until) then 1 else 0
  }

  /** A counter without a deadline was never given one; a deadline is a full window after the start. */
  predicate CountersSound(r: Rule, s: State) {
    forall key :: key in s.counters ==>
      var c := s.counters[key];
      c.start <= s.now && c.count > 0 && (c.deadline.Some? ==> c.start + r.window <= c.deadline.value)
  }

  /** Earlier counters of a key started a window before the present one, or before now if there is none. */
  predicate Superseded(r: Rule, s: State, a: Admission) {
    if a.key in s.counters then
      var start := s.counters[a.key].start;
      a.start == start || (a.start + r.window <= start && a.at <= start)
    else a.start + r.window <= s.now
  }

  predicate LogSound(r: Rule, s: State) {
    forall a :: a in s.admitted ==> a.start <= a.at <= s.now && Superseded(r, s, a)
  }

  /** Two counters of one key: the same, or the later one started a window later and after all the earlier admitted. */
  predicate Apart(r: Rule, a: Admission, b: Admission) {
    a.key == b.key ==>
      || a.start == b.start
      || (a.start + r.window <= b.start && a.at <= b.start)
      || (b.start + r.window <= a.start && b.at <= a.start)
  }

  predicate LivesApart(r: Rule, s: State) {
    forall a, b :: a in s.admitted && b in s.admitted ==> Apart(r, a, b)
  }

  /** Whatever a counter admitted, it admitted its first request. */
  predicate FirstAdmitted(s: State) {
    forall a :: a in s.admitted ==> Admission(a.key, a.start, a.start) in s.admitted
  }

  ghost predicate CountsSound(r: Rule, s: State) {
    && (forall key, start :: AdmittedBy(s.admitted, key, start) <= r.limit)
    && (forall key :: key in s.counters ==>
          AdmittedBy(s.admitted, key, s.counters[key].start)
            == if s.counters[key].count <= r.limit then s.counters[key].count else r.limit)
  }

  ghost predicate Sound(r: Rule, s: State) {
    CountersSound(r, s) && LogSound(r, s) && LivesApart(r, s) && FirstAdmitted(s) && CountsSound(r, s)
  }

  lemma InitSound(r: Rule)
    ensures Sound(r, EMPTY)
  {
  }

  lemma {:induction false} NoneAdmittedBy(log: seq<Admission>, key: string, start: nat)
    requires forall a :: a in log ==> !(a.key == key && a.start == start)
    ensures AdmittedBy(log, key, start) == 0
  {
    if log != [] {
      NoneAdmittedBy(log[..|log| - 1], key, start);
    }
  }

  /** The counter an increment of `key` lands on. */
  function Landed(s: State, key: string): Counter {
    if key in s.counters then s.counters[key].(count := s.counters[key].count + 1) else Counter(1, s.now, None)
  }

  lemma IncrCounts(r: Rule, s: State, key: string)
    requires Sound(r, s) && r.window > 0
    ensures CountsSound(r, Step(r, s, Incr(key)))
  {
    var t, c := Step(r, s, Incr(key)), Landed(s, key);
    if key !in s.counters {
      NoneAdmittedBy(s.admitted, key, s.now);
    }
    assert AdmittedBy(s.admitted, key, c.start) == if c.count - 1 <= r.limit then c.count - 1 else r.limit;
    forall k, start
      ensures AdmittedBy(t.admitted, k, start) == AdmittedBy(s.admitted, k, start)
        + if c.count <= r.limit && k == key && start == c.start then 1 else 0
    {
      if c.count <= r.limit {
        OneMore(s.admitted, Admission(key, s.now, c.start), k, start);
      } else {
        assert s.admitted + [] == s.admitted;
      }
    }
  }

  lemma OneMore(log: seq<Admission>, a: Admission, key: string, start: nat)
    ensures AdmittedBy(log + [a], key, start)
         == AdmittedBy(log, key, start) + if a.key == key && a.start == start then 1 else 0
  {
    assert (log + [a])[..|log|] == log;
  }

  lemma IncrSound(r: Rule, s: State, key: string)
    requires Sound(r, s) && r.window > 0
    ensures Sound(r, Step(r, s, Incr(key)))
  {
    IncrCounts(r, s, key);
    IncrFirst(r, s, key);
    IncrApart(r, s, key);
    IncrLog(r, s, key);
    hide CountsSound;
    hide LogSound;
    hide LivesApart;
    hide FirstAdmitted;
  }

  lemma IncrLog(r: Rule, s: State, key: string)
    requires LogSound(r, s) && CountersSound(r, s)
    ensures LogSound(r, Step(r, s, Incr(key)))
  {
    var t, c := Step(r, s, Incr(key)), Landed(s, key);
    forall b | b in t.admitted
      ensures b.start <= b.at <= t.now && Superseded(r, t, b)
    {
      if b in s.admitted {
        assert Superseded(r, s, b);
      } else {
        assert b == Admission(key, s.now, c.start);
      }
    }
  }

  lemma IncrApart(r: Rule, s: State, key: string)
    requires LogSound(r, s) && LivesApart(r, s) && CountersSound(r, s)
    ensures LivesApart(r, Step(r, s, Incr(key)))
  {
    var c := Landed(s, key);
    var n := Admission(key, s.now, c.start);
    forall b | b in s.admitted
      ensures Apart(r, n, b) && Apart(r, b, n)
    {
      assert Superseded(r, s, b);
    }
  }

  lemma IncrFirst(r: Rule, s: State, key: string)
    requires Sound(r, s)
    ensures FirstAdmitted(Step(r, s, Incr(key)))
  {
    var t, c := Step(r, s, Incr(key)), Landed(s, key);
    if c.count <= r.limit && key in s.counters {
      SomeAdmittedBy(s.admitted, key, c.start);
    }
  }

  lemma {:induction false} SomeAdmittedBy(log: seq<Admission>, key: string, start: nat)
    requires AdmittedBy(log, key, start) > 0
    ensures exists a :: a in log && a.key == key && a.start == start
  {
    var last := log[|log| - 1];
    if !(last.key == key && last.start == start) {
      SomeAdmittedBy(log[..|log| - 1], key, start);
    }
  }

  lemma SoundStep(r: Rule, s: State, a: Action)
    requires Sound(r, s) && r.window > 0
    ensures Sound(r, Step(r, s, a))
  {
    if a.Incr? {
      IncrSound(r, s, a.key);
    } else {
      var t := Step(r, s, a);
      assert t.admitted == s.admitted;
      forall b | b in s.admitted
        ensures Superseded(r, t, b)
      {
        assert Superseded(r, s, b);
      }
    }
  }

  lemma {:induction false} SoundRun(r: Rule, s: State, trace: seq<Action>)
    requires Sound(r, s) && r.window > 0
    ensures Sound(r, Run(r, s, trace))
    decreases |trace|
  {
    hide Sound;
    if trace != [] {
      SoundStep(r, s, trace[0]);
      SoundRun(r, Step(r, s, trace[0]), trace[1..]);
    }
  }

  /** However requests arrive, one counter admits at most `limit` of them. */
  lemma LimitPerCounter(r: Rule, trace: seq<Action>, key: string, start: nat)
    requires r.window > 0
    ensures AdmittedBy(Run(r, EMPTY, trace).admitted, key, start) <= r.limit
  {
    InitSound(r);
    SoundRun(r, EMPTY, trace);
  }

  // ---- Any stretch of one window ----

  lemma {:induction false} NoneWithin(log: seq<Admission>, key: string, from: nat, until: nat)
    requires forall a :: a in log ==> !Within(a, key, from, until)
    ensures AdmittedWithin(log, key, from, until) == 0
  {
    if log != [] {
      NoneWithin(log[..|log| - 1], key, from, until);
    }
  }

  /** Admissions within the stretch, all by one of two counters, are no more than those two admitted. */
  lemma {:induction false} WithinTwo(log: seq<Admission>, key: string, from: nat, until: nat, p: nat, q: nat)
    requires forall a :: a in log && Within(a, key, from, until) ==> a.start == p || a.start == q
    ensures AdmittedWithin(log, key, from, until) <= AdmittedBy(log, key, p) + AdmittedBy(log, key, q)
  {
    if log != [] {
      WithinTwo(log[..|log| - 1], key, from, until, p, q);
    }
  }

  lemma {:induction false} WithinOne(log: seq<Admission>, key: string, from: nat, until: nat, p: nat)
    requires forall a :: a in log && Within(a, key, from, until) ==> a.start == p
    ensures AdmittedWithin(log, key, from, until) <= AdmittedBy(log, key, p)
  {
    if log != [] {
      var last, rest := log[|log| - 1], log[..|log| - 1];
      WithinOne(rest, key, from, until, p);
      assert Within(last, key, from, until) ==> last in log && last.start == p && last.key == key;
      assert AdmittedBy(log, key, p) == AdmittedBy(rest, key, p) + if last.key == key && last.start == p then 1 else 0;
    }
  }

  /** One fewer, when something one of them admitted lies outside the stretch. */
  lemma {:induction false} WithinTwoLess(log: seq<Admission>, key: string, from: nat, until: nat, p: nat, q: nat,
                                         out: Admission)
    requires forall a :: a in log && Within(a, key, from, until) ==> a.start == p || a.start == q
    requires out in log && out.key == key && out.start == p && !Within(out, key, from, until)
    ensures AdmittedWithin(log, key, from, until) < AdmittedBy(log, key, p) + AdmittedBy(log, key, q)
  {
    var last, rest := log[|log| - 1], log[..|log| - 1];
    if last == out {
      WithinTwo(rest, key, from, until, p, q);
    } else {
      assert out in rest;
      WithinTwoLess(rest, key, from, until, p, q, out);
    }
  }

  lemma TwoCounters(r: Rule, s: State, key: string, from: nat, a: Admission, b: Admission)
    requires Sound(r, s) && a in s.admitted && b in s.admitted && a.start < b.start
    requires Within(a, key, from, from + r.window) && Within(b, key, from, from + r.window)
    ensures forall e :: e in s.admitted && Within(e, key, from, from + r.window) ==>
              e.start == a.start || e.start == b.start
    ensures a.start < from
  {
    assert Apart(r, a, b);
    forall e | e in s.admitted && Within(e, key, from, from + r.window)
      ensures e.start == a.start || e.start == b.start
    {
      assert Apart(r, e, a) && Apart(r, e, b);
    }
  }

  lemma WindowBound(r: Rule, s: State, key: string, from: nat)
    requires Sound(r, s) && r.limit > 0
    ensures AdmittedWithin(s.admitted, key, from, from + r.window) <= 2 * r.limit - 1
  {
    var log, until := s.admitted, from + r.window;
    if a :| a in log && Within(a, key, from, until) {
      if b :| b in log && Within(b, key, from, until) && b.start != a.start {
        var early, late := if a.start < b.start then a else b, if a.start < b.start then b else a;
        TwoCounters(r, s, key, from, early, late);
        WithinTwoLess(log, key, from, until, early.start, late.start, Admission(key, early.start, early.start));
      } else {
        WithinOne(log, key, from, until, a.start);
      }
    } else {
      NoneWithin(log, key, from, until);
    }
  }

  /** However requests arrive, any stretch of one window lets through at most `2 * limit - 1` of a client's. */
  lemma LimitPerWindow(r: Rule, trace: seq<Action>, key: string, from: nat)
    requires r.window > 0 && r.limit > 0
    ensures AdmittedWithin(Run(r, EMPTY, trace).admitted, key, from, from + r.window) <= 2 * r.limit - 1
  {
    InitSound(r);
    SoundRun(r, EMPTY, trace);
    WindowBound(r, Run(r, EMPTY, trace), key, from);
  }

  // ---- The bound is reached ----

  function Deadline(s: State, key: string): Option<nat> {
    if key in s.counters then s.counters[key].deadline else None
  }

  function Burst(key: string, n: nat): seq<Action> {
    if n == 0 then [] else Burst(key, n - 1) + [Incr(key)]
  }

  lemma OneAdmitted(r: Rule, s: State, key: string, from: nat, until: nat)
    requires Count(s, key) < r.limit && from <= s.now < until
    ensures var t := Run(r, s, [Incr(key)]);
      && t.now == s.now && Count(t, key) == Count(s, key) + 1
      && key in t.counters && t.counters[key].deadline == Deadline(s, key)
      && AdmittedWithin(t.admitted, key, from, until) == AdmittedWithin(s.admitted, key, from, until) + 1
  {
    var t := Step(r, s, Incr(key));
    assert [Incr(key)][1..] == [] && Run(r, s, [Incr(key)]) == t;
    assert t.admitted[..|t.admitted| - 1] == s.admitted;
  }

  /** `n` requests at one moment on a counter with room for them are all admitted. */
  lemma {:induction false} BurstAdmitted(r: Rule, s: State, key: string, n: nat, from: nat, until: nat)
    requires Count(s, key) + n <= r.limit && from <= s.now < until
    ensures var t := Run(r, s, Burst(key, n));
      && t.now == s.now && Count(t, key) == Count(s, key) + n
      && (n == 0 ==> t == s)
      && (n > 0 ==> key in t.counters && t.counters[key].deadline == Deadline(s, key))
      && AdmittedWithin(t.admitted, key, from, until) == AdmittedWithin(s.admitted, key, from, until) + n
  {
    hide Step;
    hide Count;
    if n > 0 {
      BurstAdmitted(r, s, key, n - 1, from, until);
      RunConcat(r, s, Burst(key, n - 1), [Incr(key)]);
      OneAdmitted(r, Run(r, s, Burst(key, n - 1)), key, from, until);
    }
  }

  /** One request, then the rest of the limit just before the window closes, then a full limit just after. */
  function Straddle(r: Rule, key: string): seq<Action>
    requires r.limit > 0 && r.window > 1
  {
    [Incr(key), Expire(key), Tick(r.window - 1)] + Burst(key, r.limit - 1)
      + [Tick(1), Drop(key)] + Burst(key, r.limit)
  }

  /** For every limit and every window over a millisecond some arrivals get all of `2 * limit - 1` through. */
  lemma BoundReached(r: Rule, key: string)
    requires r.limit > 0 && r.window > 1
    ensures AdmittedWithin(Run(r, EMPTY, Straddle(r, key)).admitted, key, 1, 1 + r.window) == 2 * r.limit - 1
  {
    hide Run;
    hide Burst;
    var a, b, d, e := [Incr(key), Expire(key), Tick(r.window - 1)], Burst(key, r.limit - 1),
      [Tick(1), Drop(key)], Burst(key, r.limit);
    RunConcat(r, EMPTY, a, b);
    RunConcat(r, EMPTY, a + b, d);
    RunConcat(r, EMPTY, a + b + d, e);
    var s := StraddleOpens(r, key);
    BurstAdmitted(r, s, key, r.limit - 1, 1, 1 + r.window);
    var t := Run(r, s, b);
    StraddleDrops(r, t, key);
    BurstAdmitted(r, Run(r, t, d), key, r.limit, 1, 1 + r.window);
  }

  lemma StraddleDrops(r: Rule, t: State, key: string)
    requires t.now + 1 == r.window && key in t.counters && t.counters[key].deadline == Some(r.window)
    ensures Run(r, t, [Tick(1), Drop(key)]) == t.(now := r.window, counters := t.counters - {key})
  {
    var d, t' := [Tick(1), Drop(key)], Step(r, t, Tick(1));
    assert d[1..] == [Drop(key)] && d[1..][1..] == [];
    assert Run(r, t', d[1..]) == Step(r, t', Drop(key));
  }

  lemma StraddleOpens(r: Rule, key: string) returns (s: State)
    requires r.limit > 0 && r.window > 1
    ensures s == Run(r, EMPTY, [Incr(key), Expire(key), Tick(r.window - 1)])
    ensures s.now == r.window - 1 && key in s.counters && s.counters[key] == Counter(1, 0, Some(r.window))
    ensures AdmittedWithin(s.admitted, key, 1, 1 + r.window) == 0
  {
    var a := [Incr(key), Expire(key), Tick(r.window - 1)];
    var s1 := Step(r, EMPTY, a[0]);
    var s2 := Step(r, s1, a[1]);
    s := Step(r, s2, a[2]);
    assert a[1..] == [Expire(key), Tick(r.window - 1)] && a[1..][1..] == [Tick(r.window - 1)];
    assert Run(r, s2, a[1..][1..]) == s;
    assert Run(r, s1, a[1..]) == s;
    assert s.admitted == [Admission(key, 0, 0)];
    assert s.admitted[..0] == [];
  }

  // ---- The second command is lost ----

  /** The counter is full and will never be removed. */
  predicate LockedOut(r: Rule, s: State, key: string) {
    key in s.counters && s.counters[key].count >= r.limit && s.counters[key].deadline.None?
  }

  lemma LockedOutStep(r: Rule, s: State, a: Action, key: string)
    requires LockedOut(r, s, key) && a != Expire(key)
    ensures LockedOut(r, Step(r, s, a), key)
    ensures s.admitted <= Step(r, s, a).admitted
    ensures forall k :: |s.admitted| <= k < |Step(r, s, a).admitted| ==> Step(r, s, a).admitted[k].key != key
  {
  }

  /** Without that command, or once it was lost, a full counter refuses its client for good, however long it waits. */
  lemma {:induction false} LostExpiryLocksOut(r: Rule, s: State, trace: seq<Action>, key: string)
    requires LockedOut(r, s, key) && Expire(key) !in trace
    ensures var t := Run(r, s, trace);
      LockedOut(r, t, key) && s.admitted <= t.admitted &&
      forall k :: |s.admitted| <= k < |t.admitted| ==> t.admitted[k].key != key
    decreases |trace|
  {
    hide Step;
    hide LockedOut;
    if trace != [] {
      assert trace[0] in trace && forall a :: a in trace[1..] ==> a in trace;
      LockedOutStep(r, s, trace[0], key);
      LostExpiryLocksOut(r, Step(r, s, trace[0]), trace[1..], key);
    }
  }
}
