/**
 What the publish protocol guarantees in every run: a reservation is never lost to
 somebody else, the pruned table answers as the full history would, attempts are spaced,
 message ids are truthful, and a rejection sticks.
 */
module ProtocolTheorems {
  import opened Options
  import opened Protocol
  import opened ProtocolInvariants
  import opened ProtocolFrames

  // ---- Reservations and sends ----

  lemma ReservationsSpread(c: Config, history: seq<Reservation>, a: nat, b: nat)
    requires ReservationsApart(c, history) && a < |history| && b < |history| && a != b
    requires history[a].hash == history[b].hash && !history[a].released && !history[b].released
    ensures history[b].at - history[a].at > c.lookback || history[a].at - history[b].at > c.lookback
  {
  }

  lemma SendsApart(c: Config, s: State, i: nat, k: nat)
    requires SendsAccounted(s) && SendsReserved(c, s) && ReservationsApart(c, s.history)
    requires i < |s.sends| && k < |s.sends| && i != k && s.sends[i].hash.Some? && s.sends[i].hash == s.sends[k].hash
    ensures var apart := c.lookback + c.spacing - c.timeout;
            s.sends[k].at - s.sends[i].at > apart || s.sends[i].at - s.sends[k].at > apart
  {
    assert s.sends[i].job != s.sends[k].job;
    ReservationsSpread(c, s.history, s.sends[i].res, s.sends[k].res);
  }

  // ---- Ownership ----

  /** Every live run between its reserve and its release or mark has its own row in the table. */
  ghost predicate OwnsRows(c: Config, s: State) {
    forall j :: Live(c, s, j) && Holds(s.jobs[j]) ==>
      s.jobs[j].hash.value in s.rows && s.rows[s.jobs[j].hash.value].id == s.jobs[j].res &&
      s.jobs[j].res < |s.history| && s.history[s.jobs[j].res].job == j
  }

  lemma ReservationOwned(c: Config, run: seq<Action>)
    requires c.timeout <= c.lookback
    ensures OwnsRows(c, Run(c, Init(), run))
  {
    var s := Run(c, Init(), run);
    InitHolds(c);
    IndexRun(c, Init(), run);
    forall j | Live(c, s, j) && Holds(s.jobs[j])
      ensures s.jobs[j].hash.value in s.rows && s.rows[s.jobs[j].hash.value].id == s.jobs[j].res
    {
      assert Reserved(c, s, j, s.jobs[j]);
    }
  }

  /** No two live runs hold one hash. */
  ghost predicate OneHolder(c: Config, s: State) {
    forall i, j ::
      Live(c, s, i) && Live(c, s, j) && Holds(s.jobs[i]) && Holds(s.jobs[j]) && s.jobs[i].hash == s.jobs[j].hash ==>
        i == j
  }

  lemma OneHolderPerHash(c: Config, run: seq<Action>)
    requires c.timeout <= c.lookback
    ensures OneHolder(c, Run(c, Init(), run))
  {
    ReservationOwned(c, run);
  }

  /** What the next release by hash alone takes out is the releasing run's row and no other. */
  ghost predicate ReleasesOwn(c: Config, s: State) {
    forall j :: MoveEnabled(c, s, j, Advance) && s.jobs[j].phase.AtRelease? && s.jobs[j].hash.Some? ==>
      ReleasesRowOf(c, s, j, s.jobs[j].hash.value)
  }

  ghost predicate ReleasesRowOf(c: Config, s: State, j: JobId, h: Hash)
    requires MoveEnabled(c, s, j, Advance)
  {
    h in s.rows && s.rows[h].id < |s.history| && s.history[s.rows[h].id].job == j &&
    MoveEffect(c, s, j, Advance).rows == s.rows - {h}
  }

  lemma ReleaseOwned(c: Config, s: State, j: JobId)
    requires Sound(c) && Base(c, s) && Index(c, s)
    requires MoveEnabled(c, s, j, Advance) && s.jobs[j].phase.AtRelease? && s.jobs[j].hash.Some?
    ensures ReleasesRowOf(c, s, j, s.jobs[j].hash.value)
  {
    LiveHolderKept(c, s, j);
    assert Reserved(c, s, j, s.jobs[j]);
    hide Base;
    hide Index;
  }

  lemma ReleaseTakesOwnRow(c: Config, run: seq<Action>)
    requires Sound(c)
    ensures ReleasesOwn(c, Run(c, Init(), run))
  {
    var s := Run(c, Init(), run);
    InitHolds(c);
    IndexRun(c, Init(), run);
    forall j | MoveEnabled(c, s, j, Advance) && s.jobs[j].phase.AtRelease? && s.jobs[j].hash.Some?
      ensures ReleasesRowOf(c, s, j, s.jobs[j].hash.value)
    {
      ReleaseOwned(c, s, j);
    }
    hide MoveEnabled;
    hide ReleasesRowOf;
  }

  // ---- The pruned table against the full history ----

  /** What scanning every unreleased reservation inside the window would answer. */
  ghost predicate ReservedWithin(c: Config, s: State, h: Hash) {
    exists i :: 0 <= i < |s.history| && s.history[i].hash == h && !s.history[i].released &&
                s.history[i].at >= s.now - c.lookback
  }

  ghost predicate IndexAgrees(c: Config, s: State) {
    forall h :: IsDuplicate(c, s, h) <==> ReservedWithin(c, s, h)
  }

  lemma PrunedTableAgrees(c: Config, run: seq<Action>)
    requires Sound(c)
    ensures IndexAgrees(c, Run(c, Init(), run))
  {
    var s := Run(c, Init(), run);
    InitHolds(c);
    IndexRun(c, Init(), run);
    forall h
      ensures IsDuplicate(c, s, h) <==> ReservedWithin(c, s, h)
    {
      if IsDuplicate(c, s, h) {
        assert s.history[s.rows[h].id].hash == h;
      }
    }
  }

  // ---- Spacing ----

  lemma AttemptsSpaced(c: Config, run: seq<Action>)
    ensures var attempts := Run(c, Init(), run).attempts;
            forall i, k :: 0 <= i < k < |attempts| && !attempts[k].retry ==>
              attempts[i].end.Some? && attempts[i].end.value + c.spacing <= attempts[k].start
    ensures var attempts := Run(c, Init(), run).attempts;
            forall k :: 0 <= k < |attempts| && attempts[k].retry ==> k > 0 && RetryOf(attempts[k - 1], attempts[k])
    ensures var attempts := Run(c, Init(), run).attempts;
            forall i, k, m :: 0 <= i < k < m < |attempts| ==>
              !(attempts[i].job == attempts[k].job && attempts[k].job == attempts[m].job)
  {
    InitHolds(c);
    BaseRun(c, Init(), run);
    var attempts := Run(c, Init(), run).attempts;
    assert SpacedAttempts(c, attempts);
    forall i, k, m | 0 <= i < k < m < |attempts|
      ensures !(attempts[i].job == attempts[k].job && attempts[k].job == attempts[m].job)
    {
      if attempts[i].job == attempts[k].job && attempts[k].job == attempts[m].job {
        assert false;
      }
    }
  }

  // ---- Published ids ----

  lemma PublishedIdsTruthful(c: Config, run: seq<Action>, p: PostId)
    requires p in Run(c, Init(), run).posts
    ensures var s := Run(c, Init(), run);
            (s.posts[p].state.Published? ==> s.posts[p].messageId.Some?) &&
            (s.posts[p].messageId.Some? ==>
               exists k :: 0 <= k < |s.sends| && s.sends[k].post == p && s.sends[k].id == s.posts[p].messageId.value)
  {
    InitHolds(c);
    BaseRun(c, Init(), run);
  }

  // ---- Rejection ----

  /** `p` is rejected or gone, and every run for it has yet to read its state. */
  ghost predicate Parked(s: State, p: PostId) {
    p < s.nextPost && (p in s.posts ==> s.posts[p].state.Rejected?) &&
    forall j :: j in s.jobs && s.jobs[j].post == p ==> s.jobs[j].phase.AtGate?
  }

  /** An editor approves or schedules `p`, or a run for `p` raises while loading it. */
  predicate Reopens(s: State, a: Action, p: PostId) {
    match a
    case World(e) => (e.Approve? || e.Schedule?) && e.post == p
    case OfRun(j, m) => m.Raise? && j in s.jobs && s.jobs[j].post == p && s.jobs[j].phase.AtGate?
  }

  ghost predicate NeverReopens(c: Config, s: State, run: seq<Action>, p: PostId)
    decreases |run|
  {
    run == [] || (!Reopens(s, run[0], p) && NeverReopens(c, Step(c, s, run[0]), run[1..], p))
  }

  function SendsOf(sends: seq<Send>, p: PostId): (r: seq<Send>)
  {
    if sends == [] then []
    else
      var k := |sends| - 1;
      SendsOf(sends[..k], p) + (if sends[k].post == p then [sends[k]] else [])
  }

  lemma EventKeepsRejected(c: Config, s: State, e: Event, p: PostId)
    requires p < s.nextPost && (p in s.posts ==> s.posts[p].state.Rejected?)
    requires EventEnabled(c, s, e) && !Reopens(s, World(e), p)
    ensures var t := EventEffect(c, s, e); p < t.nextPost && (p in t.posts ==> t.posts[p].state.Rejected?)
  {
    if e.NormalizeCommit? { NormalizeShape(s, e.post, e.content, e.duplicate, e.auto); }
    hide NormalizeTx;
  }

  lemma EventKeepsGate(c: Config, s: State, e: Event)
    requires EventEnabled(c, s, e)
    ensures var t := EventEffect(c, s, e);
            t.sends == s.sends &&
            forall j :: j in t.jobs ==> (j in s.jobs && t.jobs[j] == s.jobs[j]) || t.jobs[j].phase.AtGate?
  {
    if e.NormalizeCommit? { NormalizeShape(s, e.post, e.content, e.duplicate, e.auto); }
    hide NormalizeTx;
  }

  lemma EventKeepsParked(c: Config, s: State, e: Event, p: PostId)
    requires Parked(s, p) && EventEnabled(c, s, e) && !Reopens(s, World(e), p)
    ensures Parked(EventEffect(c, s, e), p) && EventEffect(c, s, e).sends == s.sends
  {
    EventKeepsRejected(c, s, e, p);
    EventKeepsGate(c, s, e);
    hide EventEffect;
  }

  lemma MoveKeepsParked(c: Config, s: State, j: JobId, m: Move, p: PostId)
    requires Parked(s, p) && MoveEnabled(c, s, j, m) && !Reopens(s, OfRun(j, m), p)
    ensures Parked(MoveEffect(c, s, j, m), p)
    ensures SendsOf(MoveEffect(c, s, j, m).sends, p) == SendsOf(s.sends, p)
  {
    if s.jobs[j].post == p {
      assert !GatePasses(s, p);
    } else {
      OtherRunParked(c, s, j, m, p);
    }
    MoveFrame(c, s, j, m);
  }

  lemma OtherRunParked(c: Config, s: State, j: JobId, m: Move, p: PostId)
    requires MoveEnabled(c, s, j, m) && s.jobs[j].post != p
    ensures var t := MoveEffect(c, s, j, m);
            (p in s.posts && p in t.posts ==> t.posts[p] == s.posts[p]) && SendsOf(t.sends, p) == SendsOf(s.sends, p)
  {
    CommitFrame(s, j);
    if m.AttemptOk? {
      assert SendOk(s, j, m.id).sends[..|s.sends|] == s.sends;
    }
  }

  /** Whatever is queued or in flight elsewhere, a parked post is not sent until somebody reopens it. */
  lemma {:induction false} RejectionSticks(c: Config, s: State, run: seq<Action>, p: PostId)
    requires Parked(s, p) && NeverReopens(c, s, run, p)
    ensures Parked(Run(c, s, run), p) && SendsOf(Run(c, s, run).sends, p) == SendsOf(s.sends, p)
    decreases |run|
  {
    if run != [] {
      if Enabled(c, s, run[0]) {
        match run[0]
        case World(e) => EventKeepsParked(c, s, e, p);
        case OfRun(j, m) => MoveKeepsParked(c, s, j, m, p);
      }
      RejectionSticks(c, Step(c, s, run[0]), run[1..], p);
    }
  }

  // ---- Duplicates ----

  /** Nothing has asked for `p` to be published. */
  ghost predicate Unasked(s: State, p: PostId) {
    p < s.nextPost && p !in s.owed && p !in s.queue && (p in s.posts ==> !s.posts[p].state.Scheduled?) &&
    forall j :: j in s.jobs ==> s.jobs[j].post != p
  }

  /** An editor decides for `p`, or normalize finds `p` new on an `auto` channel. */
  predicate Asks(c: Config, s: State, a: Action, p: PostId) {
    a.World? &&
    match a.event
    case Approve(q, _) => q == p
    case Schedule(q, _) => q == p
    case NormalizeCommit(q, _, duplicate, auto) => q == p && auto && !duplicate
    case _ => false
  }

  ghost predicate NeverAsks(c: Config, s: State, run: seq<Action>, p: PostId)
    decreases |run|
  {
    run == [] || (!Asks(c, s, run[0], p) && NeverAsks(c, Step(c, s, run[0]), run[1..], p))
  }

  lemma EventKeepsUnasked(c: Config, s: State, e: Event, p: PostId)
    requires Unasked(s, p) && EventEnabled(c, s, e) && !Asks(c, s, World(e), p)
    ensures Unasked(EventEffect(c, s, e), p) && EventEffect(c, s, e).sends == s.sends
  {
    EventQueuesUnasked(c, s, e, p);
    EventPostUnasked(c, s, e, p);
    hide EventEffect;
  }

  lemma EventQueuesUnasked(c: Config, s: State, e: Event, p: PostId)
    requires Unasked(s, p) && EventEnabled(c, s, e) && !Asks(c, s, World(e), p)
    ensures var t := EventEffect(c, s, e); p !in t.owed && p !in t.queue && t.sends == s.sends
  {
    if e.NormalizeCommit? { NormalizeShape(s, e.post, e.content, e.duplicate, e.auto); }
    hide NormalizeTx;
  }

  lemma EventPostUnasked(c: Config, s: State, e: Event, p: PostId)
    requires Unasked(s, p) && EventEnabled(c, s, e) && !Asks(c, s, World(e), p)
    ensures var t := EventEffect(c, s, e);
            p < t.nextPost && (p in t.posts ==> !t.posts[p].state.Scheduled?) &&
            forall j :: j in t.jobs ==> t.jobs[j].post != p
  {
    if e.NormalizeCommit? { NormalizeShape(s, e.post, e.content, e.duplicate, e.auto); }
    hide NormalizeTx;
  }

  lemma MoveKeepsUnasked(c: Config, s: State, j: JobId, m: Move, p: PostId)
    requires Unasked(s, p) && MoveEnabled(c, s, j, m)
    ensures Unasked(MoveEffect(c, s, j, m), p)
    ensures SendsOf(MoveEffect(c, s, j, m).sends, p) == SendsOf(s.sends, p)
  {
    MoveFrame(c, s, j, m);
    if m.AttemptOk? { assert MoveEffect(c, s, j, m).sends[..|s.sends|] == s.sends; }
  }

  /** A post that normalize only ever finds duplicate, and no editor releases, is never sent. */
  lemma {:induction false} DuplicatesNeverSent(c: Config, s: State, run: seq<Action>, p: PostId)
    requires Unasked(s, p) && NeverAsks(c, s, run, p)
    ensures Unasked(Run(c, s, run), p) && SendsOf(Run(c, s, run).sends, p) == SendsOf(s.sends, p)
    decreases |run|
  {
    if run != [] {
      if Enabled(c, s, run[0]) {
        match run[0]
        case World(e) => EventKeepsUnasked(c, s, e, p);
        case OfRun(j, m) => MoveKeepsUnasked(c, s, j, m, p);
      }
      DuplicatesNeverSent(c, Step(c, s, run[0]), run[1..], p);
    }
  }
}
