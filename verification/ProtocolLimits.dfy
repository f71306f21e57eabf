/**
 The conditions of the guarantees are exact: each guarantee holds in all runs if and
 only if its condition on the configuration does. The other half is a concrete run.
 */
module ProtocolLimits {
  import opened Options
  import opened Protocol
  import opened ProtocolInvariants
  import opened ProtocolTheorems
  import opened ProtocolWriteOnce
  import opened ProtocolSegments
  import opened ProtocolDeliveries

  ghost predicate Reachable(c: Config, s: State) {
    exists run :: DisciplinedRun(c, Init(), run) && Run(c, Init(), run) == s
  }

  lemma ReachRun(c: Config, s: State, run: seq<Action>) returns (t: State)
    requires Reachable(c, s) && DisciplinedRun(c, s, run)
    ensures t == Run(c, s, run) && Reachable(c, t)
  {
    var first :| DisciplinedRun(c, Init(), first) && Run(c, Init(), first) == s;
    DisciplinedConcat(c, Init(), first, run);
    t := Run(c, s, run);
  }

  lemma Reach(c: Config, s: State, a: Action) returns (t: State)
    requires Reachable(c, s) && Disciplined(s, a)
    ensures t == Step(c, s, a) && Reachable(c, t)
  {
    RunOne(c, s, a);
    t := ReachRun(c, s, [a]);
  }

  // ---- One post and the runs that publish it ----

  function PostIn(state: PostState, id: Option<nat>): map<PostId, Post> {
    map[0 := Post(state, "h", Some("h"), id, None)]
  }

  function JobIn(start: int, res: nat, phase: Phase): Job {
    Job(0, start, Some("h"), res, phase)
  }

  function Fresh(): State {
    State(0, PostIn(Pending, None), 1, map[], [], map[], 0, None,
          multiset{}, multiset{0}, multiset{}, [], [])
  }

  function Ingested(): State {
    Init().(posts := map[0 := Post(Pending, "h", None, None, None)], nextPost := 1)
  }

  lemma ReachIngested(c: Config)
    ensures Reachable(c, Ingested())
  {
    assert DisciplinedRun(c, Init(), []) && Run(c, Init(), []) == Init();
    var s := Reach(c, Init(), World(Ingest("h")));
    assert s == Ingested();
  }

  lemma ReachFresh(c: Config)
    ensures Reachable(c, Fresh())
  {
    ReachIngested(c);
    var s := Reach(c, Ingested(), World(NormalizeLoad(0)));
    assert s == Ingested().(loaded := multiset{(0, "h", None)});
    s := Reach(c, s, World(NormalizeCheck(0, "h")));
    assert s == Ingested().(loaded := multiset{(0, "h", Some(false))});
    s := Reach(c, s, World(NormalizeCommit(0, "h", false, true)));
    assert s.owed == multiset{0} && s.loaded == multiset{};
    assert s == Fresh();
  }

  /** Run 0 has reserved at time 0 and waits for the lock. */
  function Holding(): State {
    State(0, PostIn(Publishing, None), 1, map["h" := Row(0, 0)], [Reservation("h", 0, 0, false)],
          map[0 := JobIn(0, 0, AwaitLock)], 1, None,
          multiset{}, multiset{}, multiset{0}, [], [])
  }

  function Queued(): State {
    Fresh().(owed := multiset{}, queue := multiset{0})
  }

  lemma ReachQueued(c: Config)
    ensures Reachable(c, Queued())
  {
    ReachFresh(c);
    var s := Reach(c, Fresh(), World(Enqueue(0)));
    assert s.owed == multiset{} && s.queue == multiset{0};
  }

  lemma ReachHolding(c: Config)
    ensures Reachable(c, Holding())
  {
    hide Step;
    hide Run;
    hide DisciplinedRun;
    ReachQueued(c);
    var s := Queued();
    Enters(c, s, 0);
    s := ReachRun(c, s, Entering(s, 0));
    assert s.posts == PostIn(Publishing, None) && s.jobs == map[0 := JobIn(0, 0, AtCheck)];
    Reserves(c, s, 0);
    s := ReachRun(c, s, Reserving(0));
    assert s == Holding();
  }

  /** Run 0 is inside its first attempt. */
  function SendingFirst(c: Config): State {
    Holding().(now := c.spacing, lock := Some(0), jobs := map[0 := JobIn(0, 0, Sending(false))],
               attempts := [Attempt(0, false, c.spacing, None, None)])
  }

  lemma ReachSendingFirst(c: Config)
    requires c.spacing <= c.timeout
    ensures Reachable(c, SendingFirst(c))
  {
    hide Step;
    hide Run;
    hide DisciplinedRun;
    ReachHolding(c);
    Attempts(c, Holding(), 0);
    var s := ReachRun(c, Holding(), Attempting(c, 0));
    assert s == SendingFirst(c);
  }

  // ---- Ownership ----

  lemma OwnershipBroken(c: Config)
    requires c.lookback < c.timeout
    ensures exists s :: Reachable(c, s) && !OwnsRows(c, s)
  {
    ReachHolding(c);
    var s := Reach(c, Holding(), World(Tick(c.lookback + 1)));
    s := Reach(c, s, World(Prune(1)));
    assert Live(c, s, 0) && Holds(s.jobs[0]) && "h" !in s.rows;
  }

  /** Live reservations are always in the table exactly when a run cannot outlive the lookback window. */
  lemma OwnershipExact(c: Config)
    ensures (forall s :: Reachable(c, s) ==> OwnsRows(c, s)) <==> c.timeout <= c.lookback
  {
    if c.timeout <= c.lookback {
      forall s | Reachable(c, s)
        ensures OwnsRows(c, s)
      {
        var run :| DisciplinedRun(c, Init(), run) && Run(c, Init(), run) == s;
        ReservationOwned(c, run);
      }
    } else {
      OwnershipBroken(c);
    }
  }

  /** Run 0's row is pruned, and run 1 has reserved the hash while run 0 still waits for the lock. */
  function BothHolding(c: Config): State {
    Holding().(now := c.lookback + 1, owed := multiset{0}, nextJob := 2,
               rows := map["h" := Row(1, c.lookback + 1)],
               history := [Reservation("h", 0, 0, false), Reservation("h", 1, c.lookback + 1, false)],
               jobs := map[0 := JobIn(0, 0, AwaitLock), 1 := JobIn(c.lookback + 1, 1, AwaitLock)])
  }

  lemma ReachBothHolding(c: Config)
    ensures Reachable(c, BothHolding(c))
  {
    hide Step;
    hide Run;
    hide DisciplinedRun;
    ReachHolding(c);
    TickStep(c, Holding(), c.lookback + 1);
    var s := Reach(c, Holding(), World(Tick(c.lookback + 1)));
    PruneStep(c, s, 1);
    s := Reach(c, s, World(Prune(1)));
    assert s.rows == map[];
    ApproveStep(c, s, 0, false);
    s := Reach(c, s, World(Approve(0, false)));
    assert s.posts == PostIn(Approved, None);
    Enters(c, s, 0);
    s := ReachRun(c, s, Entering(s, 0));
    assert s.posts == PostIn(Publishing, None) && s.jobs[1] == JobIn(c.lookback + 1, 0, AtCheck);
    Reserves(c, s, 1);
    s := ReachRun(c, s, Reserving(1));
    assert s.jobs == BothHolding(c).jobs;
    assert s == BothHolding(c);
  }

  /** Live runs are alone for their hash in all runs exactly when a run cannot outlive the lookback window. */
  lemma OneHolderExact(c: Config)
    ensures (forall s :: Reachable(c, s) ==> OneHolder(c, s)) <==> c.timeout <= c.lookback
  {
    if c.timeout <= c.lookback {
      forall s | Reachable(c, s)
        ensures OneHolder(c, s)
      {
        var run :| DisciplinedRun(c, Init(), run) && Run(c, Init(), run) == s;
        OneHolderPerHash(c, run);
      }
    } else {
      ReachBothHolding(c);
      var s := BothHolding(c);
      assert Live(c, s, 0) && Live(c, s, 1) && Holds(s.jobs[0]) && Holds(s.jobs[1]);
    }
  }

  // ---- The pruned table ----

  function Later(a: int, b: int): int {
    if a < b then b else a
  }

  /** Run 0's row is pruned under it while it is still sending. */
  function Undermined(c: Config): State {
    SendingFirst(c).(now := Later(c.spacing, c.lookback + 1), rows := map[])
  }

  lemma ReachUndermined(c: Config)
    requires c.lookback < c.timeout && c.spacing <= c.timeout
    ensures Reachable(c, Undermined(c))
  {
    hide Step;
    hide Run;
    hide DisciplinedRun;
    ReachSendingFirst(c);
    var now := Later(c.spacing, c.lookback + 1);
    var s := Reach(c, SendingFirst(c), World(Tick(now - c.spacing)));
    TickStep(c, SendingFirst(c), now - c.spacing);
    PruneStep(c, s, now - c.lookback);
    s := Reach(c, s, World(Prune(now - c.lookback)));
    assert s.rows == map[];
    assert s == Undermined(c);
  }

  /** Run 1 has reserved the hash meanwhile. */
  function Overtaken(c: Config): State {
    var u := Undermined(c);
    u.(posts := PostIn(Publishing, None), owed := multiset{0}, nextJob := 2,
       rows := map["h" := Row(1, u.now)], history := u.history + [Reservation("h", 1, u.now, false)],
       jobs := map[0 := JobIn(0, 0, Sending(false)), 1 := JobIn(u.now, 1, AwaitLock)])
  }

  lemma ReachOvertaken(c: Config)
    requires c.lookback < c.timeout && c.spacing <= c.timeout
    ensures Reachable(c, Overtaken(c))
  {
    hide Step;
    hide Run;
    hide DisciplinedRun;
    ReachUndermined(c);
    var u := Undermined(c);
    ApproveStep(c, u, 0, false);
    var s := Reach(c, u, World(Approve(0, false)));
    assert s.posts == PostIn(Approved, None);
    Enters(c, s, 0);
    s := ReachRun(c, s, Entering(s, 0));
    assert s.posts == PostIn(Publishing, None) && s.jobs[1] == JobIn(u.now, 0, AtCheck);
    Reserves(c, s, 1);
    s := ReachRun(c, s, Reserving(1));
    assert s.jobs == Overtaken(c).jobs;
    assert s == Overtaken(c);
  }

  /** Run 0's send has failed, and what its release will take out is run 1's row. */
  lemma ReachStealing(c: Config) returns (s: State)
    requires !Sound(c)
    ensures Reachable(c, s) && s == EndSection(Overtaken(c), 0, AtRelease)
  {
    hide Run;
    hide Step;
    hide DisciplinedRun;
    ReachOvertaken(c);
    SendErrorStep(c, Overtaken(c), 0);
    s := Reach(c, Overtaken(c), OfRun(0, AttemptFails));
  }

  /** A release takes out its own run's row in all runs exactly when `Sound` holds. */
  lemma ReleaseExact(c: Config)
    ensures (forall s :: Reachable(c, s) ==> ReleasesOwn(c, s)) <==> Sound(c)
  {
    if Sound(c) {
      forall s | Reachable(c, s)
        ensures ReleasesOwn(c, s)
      {
        var run :| DisciplinedRun(c, Init(), run) && Run(c, Init(), run) == s;
        ReleaseTakesOwnRow(c, run);
      }
    } else {
      var s := ReachStealing(c);
      assert MoveEnabled(c, s, 0, Advance) && s.jobs[0].phase.AtRelease? && s.jobs[0].hash == Some("h");
      assert !ReleasesRowOf(c, s, 0, "h");
    }
  }

  lemma AgreementBroken(c: Config)
    requires !Sound(c)
    ensures exists s :: Reachable(c, s) && !IndexAgrees(c, s)
  {
    hide Run;
    hide Step;
    hide DisciplinedRun;
    var s := ReachStealing(c);
    ReleaseStep(c, s, 0);
    s := Reach(c, s, OfRun(0, Advance));
    assert "h" !in s.rows && s.history[1] == Reservation("h", 1, s.now, false);
    assert ReservedWithin(c, s, "h") && !IsDuplicate(c, s, "h");
  }

  /** The pruned table answers as the full history in all runs exactly when `Sound` holds. */
  lemma AgreementExact(c: Config)
    ensures (forall s :: Reachable(c, s) ==> IndexAgrees(c, s)) <==> Sound(c)
  {
    if Sound(c) {
      forall s | Reachable(c, s)
        ensures IndexAgrees(c, s)
      {
        var run :| DisciplinedRun(c, Init(), run) && Run(c, Init(), run) == s;
        PrunedTableAgrees(c, run);
      }
    } else {
      AgreementBroken(c);
    }
  }

  // ---- Write-once ids ----

  ghost predicate WriteOnce(c: Config) {
    forall s, a, p :: Reachable(c, s) && Disciplined(s, a) && HasId(s, p) && p in Step(c, s, a).posts ==>
      Step(c, s, a).posts[p].messageId == s.posts[p].messageId
  }

  /** Run 0 has sent message 1; run 1 passed the gate at the last moment before the mark. */
  function Racing(c: Config): State {
    Holding().(now := c.timeout, posts := PostIn(Publishing, None), owed := multiset{0}, nextJob := 2,
               jobs := map[0 := JobIn(0, 0, AtMark(1)), 1 := JobIn(c.timeout, 0, AtCheck)],
               sends := [Send(0, 0, Some("h"), 0, 1, c.spacing)],
               attempts := [Attempt(0, false, c.spacing, Some(c.spacing), None)])
  }

  lemma ReachRacing(c: Config)
    requires c.spacing <= c.timeout
    ensures Reachable(c, Racing(c))
  {
    hide Step;
    hide Run;
    hide DisciplinedRun;
    ReachSendingFirst(c);
    SendOkStep(c, SendingFirst(c), 0, 1);
    var s := Reach(c, SendingFirst(c), OfRun(0, AttemptOk(1)));
    assert s.jobs == map[0 := JobIn(0, 0, AtMark(1))] && s.attempts == Racing(c).attempts;
    TickStep(c, s, c.timeout - c.spacing);
    s := Reach(c, s, World(Tick(c.timeout - c.spacing)));
    ReachSecondRun(c, s);
  }

  lemma ReachSecondRun(c: Config, s: State)
    requires Reachable(c, s)
    requires s == Racing(c).(jobs := map[0 := JobIn(0, 0, AtMark(1))], nextJob := 1, owed := multiset{})
    ensures Reachable(c, Racing(c))
  {
    hide Step;
    hide Run;
    hide DisciplinedRun;
    ApproveStep(c, s, 0, false);
    var t := Reach(c, s, World(Approve(0, false)));
    assert t.posts == PostIn(Approved, None);
    Enters(c, t, 0);
    t := ReachRun(c, t, Entering(t, 0));
    assert t.posts == PostIn(Publishing, None) && t.jobs == Racing(c).jobs;
    assert t == Racing(c);
  }

  /** Message 1 is recorded, its row has been pruned, and run 1 is still live. */
  function Outlived(c: Config): State {
    Racing(c).(now := Later(c.timeout, c.lookback + 1), posts := PostIn(Published, Some(1)), rows := map[],
               jobs := map[0 := JobIn(0, 0, AtCard), 1 := JobIn(c.timeout, 0, AtCheck)])
  }

  lemma MarkWinner(c: Config)
    ensures AdvanceJob(Racing(c), 0) ==
            Racing(c).(posts := PostIn(Published, Some(1)), jobs := Outlived(c).jobs)
  {
    assert AdvanceJob(Racing(c), 0).jobs == Outlived(c).jobs;
    assert AdvanceJob(Racing(c), 0).posts == PostIn(Published, Some(1));
  }

  lemma ReachOutlived(c: Config)
    requires c.spacing <= c.timeout
    ensures Reachable(c, Outlived(c))
  {
    hide Step;
    hide Run;
    hide DisciplinedRun;
    ReachRacing(c);
    var now := Later(c.timeout, c.lookback + 1);
    AdvanceStep(c, Racing(c), 0);
    var s := Reach(c, Racing(c), OfRun(0, Advance));
    MarkWinner(c);
    TickStep(c, s, now - c.timeout);
    s := Reach(c, s, World(Tick(now - c.timeout)));
    PruneStep(c, s, now - c.lookback);
    s := Reach(c, s, World(Prune(now - c.lookback)));
    assert s.rows == map[];
    assert s == Outlived(c);
  }

  /** Run 1 reserves the pruned hash again and sends message 2. */
  lemma ReachSecondSend(c: Config) returns (s: State)
    requires !IdsSafe(c)
    ensures Reachable(c, s) && s.now <= 2 * c.timeout && s.posts == PostIn(Published, Some(1))
    ensures 1 in s.jobs && s.jobs[1] == JobIn(c.timeout, 1, AtMark(2))
  {
    hide Step;
    hide Run;
    hide DisciplinedRun;
    ReachOutlived(c);
    var u := Outlived(c);
    Reserves(c, u, 1);
    s := ReachRun(c, u, Reserving(1));
    assert s.jobs[1] == JobIn(c.timeout, 1, AwaitLock) && s.now == u.now && s.posts == u.posts;
    Attempts(c, s, 1);
    s := ReachRun(c, s, Attempting(c, 1));
    SendOkStep(c, s, 1, 2);
    s := Reach(c, s, OfRun(1, AttemptOk(2)));
  }

  lemma WriteOnceBroken(c: Config)
    requires !IdsSafe(c)
    ensures !WriteOnce(c)
  {
    var s := ReachSecondSend(c);
    AdvanceStep(c, s, 1);
    assert HasId(s, 0) && 0 in Step(c, s, OfRun(1, Advance)).posts;
    assert Step(c, s, OfRun(1, Advance)).posts[0].messageId == Some(2);
  }

  /** In disciplined runs a stored message id never changes exactly when `IdsSafe` holds. */
  lemma WriteOnceExact(c: Config)
    ensures WriteOnce(c) <==> IdsSafe(c)
  {
    if IdsSafe(c) {
      forall s, a, p | Reachable(c, s) && Disciplined(s, a) && HasId(s, p) && p in Step(c, s, a).posts
        ensures Step(c, s, a).posts[p].messageId == s.posts[p].messageId
      {
        var run :| DisciplinedRun(c, Init(), run) && Run(c, Init(), run) == s;
        InitHolds(c);
        GuardedRun(c, Init(), run);
        RecordedStep(c, s, a, p);
      }
    } else {
      WriteOnceBroken(c);
    }
  }

  // ---- How close two sends of one hash come ----

  /** Run 0 sends at the last moment before its timeout and is cut off before its mark. */
  function SentLate(c: Config): State {
    Queued().(now := c.timeout, posts := PostIn(Publishing, None), nextJob := 1,
              rows := map["h" := Row(0, 0)], history := [Reservation("h", 0, 0, false)],
              sends := [Send(0, 0, Some("h"), 0, 1, c.timeout)],
              attempts := [Attempt(0, false, c.spacing, Some(c.timeout), None)])
  }

  lemma CrashStep(c: Config, s: State, j: JobId)
    requires j in s.jobs
    ensures Step(c, s, OfRun(j, Crash)) == CrashJob(s, j)
  {
  }

  lemma ReachSentLate(c: Config)
    requires c.spacing <= c.timeout
    ensures Reachable(c, SentLate(c))
  {
    hide Step;
    hide Run;
    hide DisciplinedRun;
    ReachSendingFirst(c);
    TickStep(c, SendingFirst(c), c.timeout - c.spacing);
    var s := Reach(c, SendingFirst(c), World(Tick(c.timeout - c.spacing)));
    SendOkStep(c, s, 0, 1);
    s := Reach(c, s, OfRun(0, AttemptOk(1)));
    assert s.attempts == SentLate(c).attempts && s.jobs == map[0 := JobIn(0, 0, AtMark(1))];
    CrashStep(c, s, 0);
    s := Reach(c, s, OfRun(0, Crash));
    assert s.jobs == map[];
    assert s == SentLate(c);
  }

  /** The window has passed and an editor has asked again. */
  function Forgotten(c: Config): State {
    SentLate(c).(now := c.lookback + 1, rows := map[], posts := PostIn(Approved, None), owed := multiset{0})
  }

  lemma ReachForgotten(c: Config)
    requires c.spacing <= c.timeout <= c.lookback
    ensures Reachable(c, Forgotten(c))
  {
    hide Step;
    hide Run;
    hide DisciplinedRun;
    ReachSentLate(c);
    var wait := c.lookback + 1 - c.timeout;
    TickStep(c, SentLate(c), wait);
    var s := Reach(c, SentLate(c), World(Tick(wait)));
    PruneStep(c, s, 1);
    s := Reach(c, s, World(Prune(1)));
    assert s.rows == map[];
    ApproveStep(c, s, 0, false);
    s := Reach(c, s, World(Approve(0, false)));
    assert s.posts == PostIn(Approved, None) && s.owed == multiset{0};
    assert s == Forgotten(c);
  }

  /** Two sends of one hash come within a millisecond of the bound of `SendsFarApart`. */
  lemma SendsBoundReached(c: Config) returns (s: State)
    requires c.spacing <= c.timeout <= c.lookback
    ensures Reachable(c, s) && |s.sends| == 2 && s.sends[0].hash == s.sends[1].hash == Some("h")
    ensures s.sends[1].at - s.sends[0].at == c.lookback + c.spacing - c.timeout + 1
  {
    hide Step;
    hide Run;
    hide DisciplinedRun;
    ReachForgotten(c);
    var u := Forgotten(c);
    Retries(c, u, 0);
    s := ReachRun(c, u, Retrying(c, u, 0));
    RetriedAtSend(c, u, 0);
    SendOkStep(c, s, 1, 2);
    s := Reach(c, s, OfRun(1, AttemptOk(2)));
  }
}
