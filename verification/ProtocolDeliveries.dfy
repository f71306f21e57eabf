/**
 Deliveries over whole runs: how far apart they are, and that a delivered hash is not
 delivered again while its row is in the table, whatever the later runs for it do.
 */
module ProtocolDeliveries {
  import opened Options
  import opened Protocol
  import opened ProtocolInvariants
  import opened ProtocolFrames
  import opened ProtocolTheorems
  import opened ProtocolWriteOnce

  // ---- A send is the end of an attempt ----

  ghost predicate SendsEndAttempts(s: State) {
    forall k :: 0 <= k < |s.sends| ==> EndsSome(s.attempts, s.sends[k])
  }

  ghost predicate EndsSome(attempts: seq<Attempt>, send: Send) {
    exists i :: 0 <= i < |attempts| && Ends(attempts[i], send)
  }

  predicate Ends(attempt: Attempt, send: Send) {
    attempt.job == send.job && attempt.end == Some(send.at)
  }

  /** Attempts that are over stay as they are. */
  ghost predicate EndsKept(s: State, t: State) {
    |s.attempts| <= |t.attempts| &&
    forall i :: 0 <= i < |s.attempts| && s.attempts[i].end.Some? ==> t.attempts[i] == s.attempts[i]
  }

  lemma MoveKeepsEnds(c: Config, s: State, j: JobId, m: Move)
    requires Base(c, s) && MoveEnabled(c, s, j, m)
    ensures EndsKept(s, MoveEffect(c, s, j, m))
  {
    if TransactionMove(m) { CommitFrame(s, j); }
  }

  lemma MoveEndsAttempts(c: Config, s: State, j: JobId, m: Move)
    requires Base(c, s) && SendsEndAttempts(s) && MoveEnabled(c, s, j, m)
    ensures SendsEndAttempts(MoveEffect(c, s, j, m))
  {
    var t := MoveEffect(c, s, j, m);
    MoveKeepsEnds(c, s, j, m);
    MoveFrame(c, s, j, m);
    forall k | 0 <= k < |t.sends|
      ensures EndsSome(t.attempts, t.sends[k])
    {
      if k < |s.sends| {
        var i :| 0 <= i < |s.attempts| && Ends(s.attempts[i], s.sends[k]);
        assert Ends(t.attempts[i], t.sends[k]);
      } else {
        SendEndsLast(c, s, j, m);
        assert Ends(t.attempts[|s.attempts| - 1], t.sends[k]);
      }
    }
  }

  lemma SendEndsLast(c: Config, s: State, j: JobId, m: Move)
    requires Base(c, s) && MoveEnabled(c, s, j, m) && |MoveEffect(c, s, j, m).sends| > |s.sends|
    ensures var t := MoveEffect(c, s, j, m);
            |t.sends| == |s.sends| + 1 && |s.attempts| > 0 && |t.attempts| == |s.attempts| &&
            Ends(t.attempts[|s.attempts| - 1], t.sends[|s.sends|])
  {
    MoveFrame(c, s, j, m);
    assert m.AttemptOk?;
  }

  lemma EndsStep(c: Config, s: State, a: Action)
    requires Base(c, s) && SendsEndAttempts(s)
    ensures SendsEndAttempts(Step(c, s, a))
  {
    if Enabled(c, s, a) {
      match a
      case World(e) => EventKeepsLogs(c, s, e);
      case OfRun(j, m) => MoveEndsAttempts(c, s, j, m);
    }
    hide EventEffect;
    hide MoveEffect;
    hide EndsSome;
  }

  lemma EventKeepsLogs(c: Config, s: State, e: Event)
    requires EventEnabled(c, s, e) && (forall p :: p in s.posts ==> p < s.nextPost)
    ensures var t := EventEffect(c, s, e); t.sends == s.sends && t.attempts == s.attempts && t.history == s.history
  {
    if !e.Start? {
      EventFrame(c, s, e);
      hide EventEffect;
    }
  }

  lemma {:induction false} EndsRun(c: Config, s: State, run: seq<Action>)
    requires Base(c, s) && SendsEndAttempts(s)
    ensures Base(c, Run(c, s, run)) && SendsEndAttempts(Run(c, s, run))
    decreases |run|
  {
    if run != [] {
      BaseStep(c, s, run[0]);
      EndsStep(c, s, run[0]);
      EndsRun(c, Step(c, s, run[0]), run[1..]);
    }
  }

  predicate Forward(attempt: Attempt) {
    attempt.end.Some? ==> attempt.start <= attempt.end.value
  }

  /** An attempt ends a spacing after every attempt of another run that came before it. */
  lemma EndsApart(c: Config, attempts: seq<Attempt>, i: nat, k: nat)
    requires SpacedAttempts(c, attempts) && i < k < |attempts| && attempts[i].job != attempts[k].job
    requires attempts[k].end.Some? && Forward(attempts[k]) && Forward(attempts[k - 1])
    ensures attempts[i].end.Some? && attempts[i].end.value + c.spacing <= attempts[k].end.value
  {
    if attempts[k].retry {
      assert RetryOf(attempts[k - 1], attempts[k]);
      assert i < k - 1 && !attempts[k - 1].retry;
    }
  }

  lemma AttemptsForward(c: Config, s: State)
    requires Section(c, s)
    ensures forall i :: 0 <= i < |s.attempts| ==> Forward(s.attempts[i])
  {
    assert forall i :: 0 <= i < |s.attempts| - 1 ==> Forward(s.attempts[i]);
  }

  lemma SpacedInState(c: Config, s: State, i: nat, k: nat)
    requires Base(c, s) && SendsEndAttempts(s) && i < |s.sends| && k < |s.sends| && i != k
    ensures s.sends[k].at - s.sends[i].at >= c.spacing || s.sends[i].at - s.sends[k].at >= c.spacing
  {
    assert s.sends[i].job != s.sends[k].job;
    var a :| 0 <= a < |s.attempts| && Ends(s.attempts[a], s.sends[i]);
    var b :| 0 <= b < |s.attempts| && Ends(s.attempts[b], s.sends[k]);
    AttemptsForward(c, s);
    if a < b {
      EndsApart(c, s.attempts, a, b);
    } else {
      EndsApart(c, s.attempts, b, a);
    }
  }

  /** In every run, and whatever they carry, two completed sends are a spacing apart. */
  lemma SendsSpaced(c: Config, run: seq<Action>, i: nat, k: nat)
    requires i < |Run(c, Init(), run).sends| && k < |Run(c, Init(), run).sends| && i != k
    ensures var sends := Run(c, Init(), run).sends;
            sends[k].at - sends[i].at >= c.spacing || sends[i].at - sends[k].at >= c.spacing
  {
    InitHolds(c);
    EndsRun(c, Init(), run);
    SpacedInState(c, Run(c, Init(), run), i, k);
  }

  // ---- How far apart ----

  /** In every run two completed sends of one hash are more than lookback + spacing - timeout apart. */
  lemma SendsFarApart(c: Config, run: seq<Action>, i: nat, k: nat)
    requires var s := Run(c, Init(), run);
             i < |s.sends| && k < |s.sends| && i != k && s.sends[i].hash.Some? && s.sends[i].hash == s.sends[k].hash
    ensures var s := Run(c, Init(), run);
            var apart := c.lookback + c.spacing - c.timeout;
            s.sends[k].at - s.sends[i].at > apart || s.sends[i].at - s.sends[k].at > apart
  {
    InitHolds(c);
    var s := Run(c, Init(), run);
    if Sound(c) {
      IndexRun(c, Init(), run);
      SendsApart(c, s, i, k);
    } else {
      SendsSpaced(c, run, i, k);
    }
  }

  // ---- While the row of a send is in the table ----

  /** The row that send `k` was made under is in the table. */
  predicate RowStands(s: State, k: nat) {
    k < |s.sends| && s.sends[k].hash.Some? && s.sends[k].hash.value in s.rows &&
    s.rows[s.sends[k].hash.value].id == s.sends[k].res
  }

  lemma StandingRowBlocks(c: Config, s: State, k: nat, j: JobId)
    requires Sound(c) && Base(c, s) && Index(c, s) && RowStands(s, k)
    requires Live(c, s, j) && s.jobs[j].hash == s.sends[k].hash
    ensures !s.jobs[j].phase.Sending? && !s.jobs[j].phase.Backoff? && !s.jobs[j].phase.AtRelease?
    ensures s.jobs[j].phase.AtMark? ==> j == s.sends[k].job
  {
    if Holds(s.jobs[j]) && Attempted(s.jobs[j].phase) {
      LiveHolderKept(c, s, j);
      assert Reserved(c, s, j, s.jobs[j]);
    }
  }

  /**
   While a completed send's row is in the table no live run with its hash is sending,
   backing off or releasing, and only the sender itself may be at its mark.
   */
  lemma SentRowBlocks(c: Config, run: seq<Action>, k: nat, j: JobId)
    requires Sound(c)
    requires var s := Run(c, Init(), run); RowStands(s, k) && Live(c, s, j) && s.jobs[j].hash == s.sends[k].hash
    ensures var phase := Run(c, Init(), run).jobs[j].phase; !phase.Sending? && !phase.Backoff? && !phase.AtRelease?
    ensures var s := Run(c, Init(), run); s.jobs[j].phase.AtMark? ==> j == s.sends[k].job
  {
    InitHolds(c);
    IndexRun(c, Init(), run);
    StandingRowBlocks(c, Run(c, Init(), run), k, j);
  }

  /** The row is there from the send until the lookback window has passed its reservation. */
  lemma SentRowKept(c: Config, run: seq<Action>, k: nat)
    requires Sound(c)
    requires var s := Run(c, Init(), run);
             k < |s.sends| && s.sends[k].hash.Some? && s.now <= s.sends[k].at + c.lookback - c.timeout
    ensures RowStands(Run(c, Init(), run), k)
  {
    InitHolds(c);
    IndexRun(c, Init(), run);
    var s := Run(c, Init(), run);
    assert !s.history[s.sends[k].res].released;
  }

  function SendsWith(sends: seq<Send>, h: Option<Hash>): seq<Send> {
    if sends == [] then []
    else
      var k := |sends| - 1;
      SendsWith(sends[..k], h) + (if sends[k].hash == h then [sends[k]] else [])
  }

  /** A row comes in under a fresh id only, so a row that stands after a step stood before it. */
  lemma RowStoodBefore(c: Config, s: State, a: Action, h: Hash, res: nat)
    requires res < |s.history| && h in Step(c, s, a).rows && Step(c, s, a).rows[h].id == res
    requires forall p :: p in s.posts ==> p < s.nextPost
    ensures h in s.rows && s.rows[h].id == res && |s.history| <= |Step(c, s, a).history|
  {
    if Enabled(c, s, a) {
      match a
      case World(e) => RowStoodBeforeEvent(c, s, e, h, res);
      case OfRun(j, m) => RowStoodBeforeMove(c, s, j, m, h, res);
    }
    hide EventEffect;
    hide MoveEffect;
  }

  lemma RowStoodBeforeEvent(c: Config, s: State, e: Event, h: Hash, res: nat)
    requires EventEnabled(c, s, e) && h in EventEffect(c, s, e).rows && EventEffect(c, s, e).rows[h].id == res
    requires forall p :: p in s.posts ==> p < s.nextPost
    ensures h in s.rows && s.rows[h].id == res && EventEffect(c, s, e).history == s.history
  {
    EventKeepsLogs(c, s, e);
    if !e.Prune? && !e.Start? {
      EventFrame(c, s, e);
      hide EventEffect;
    }
  }

  lemma RowStoodBeforeMove(c: Config, s: State, j: JobId, m: Move, h: Hash, res: nat)
    requires MoveEnabled(c, s, j, m) && res < |s.history|
    requires h in MoveEffect(c, s, j, m).rows && MoveEffect(c, s, j, m).rows[h].id == res
    ensures h in s.rows && s.rows[h].id == res && |s.history| <= |MoveEffect(c, s, j, m).history|
  {
    MoveFrame(c, s, j, m);
    if TransactionMove(m) {
      TransactionTables(c, s, j, m);
      if h in Commit(s, j).rows { CommitRows(s, j, h); }
    } else {
      SectionTables(c, s, j, m);
    }
    hide MoveEffect;
    hide Commit;
  }

  /** A transaction leaves the row of a hash, takes it out, or puts one in under a fresh id. */
  lemma CommitRows(s: State, j: JobId, h: Hash)
    requires j in s.jobs && h in Commit(s, j).rows
    ensures (h in s.rows && Commit(s, j).rows[h] == s.rows[h]) || Commit(s, j).rows[h].id == |s.history|
  {
  }

  /** One step under a standing row adds no send of its hash. */
  lemma StandingRowStep(c: Config, s: State, a: Action, k: nat)
    requires Sound(c) && Base(c, s) && Index(c, s) && RowStands(s, k)
    ensures var t := Step(c, s, a);
            s.sends <= t.sends && SendsWith(t.sends, s.sends[k].hash) == SendsWith(s.sends, s.sends[k].hash)
  {
    if Enabled(c, s, a) {
      match a
      case World(e) =>
        EventKeepsLogs(c, s, e);
        hide EventEffect;
      case OfRun(j, m) => StandingRowMove(c, s, j, m, k);
    }
    hide MoveEffect;
  }

  lemma StandingRowMove(c: Config, s: State, j: JobId, m: Move, k: nat)
    requires Sound(c) && Base(c, s) && Index(c, s) && RowStands(s, k) && MoveEnabled(c, s, j, m)
    ensures var t := MoveEffect(c, s, j, m);
            s.sends <= t.sends && SendsWith(t.sends, s.sends[k].hash) == SendsWith(s.sends, s.sends[k].hash)
  {
    if m.AttemptOk? {
      if s.jobs[j].hash == s.sends[k].hash { StandingRowBlocks(c, s, k, j); }
      assert SendOk(s, j, m.id).sends[..|s.sends|] == s.sends;
    } else {
      MoveFrame(c, s, j, m);
      hide MoveEffect;
    }
  }

  lemma {:induction false} StandingRowRun(c: Config, s: State, more: seq<Action>, k: nat)
    requires Sound(c) && Base(c, s) && Index(c, s) && k < |s.sends| && s.sends[k].hash.Some?
    requires s.sends <= Run(c, s, more).sends && RowStands(Run(c, s, more), k)
    ensures RowStands(s, k)
    ensures SendsWith(Run(c, s, more).sends, s.sends[k].hash) == SendsWith(s.sends, s.sends[k].hash)
    decreases |more|
  {
    if more != [] {
      var n := Step(c, s, more[0]);
      BaseStep(c, s, more[0]);
      IndexStep(c, s, more[0]);
      SendsGrow(c, s, more[0]);
      SendsGrowRun(c, n, more[1..]);
      StandingRowRun(c, n, more[1..], k);
      RowStoodBefore(c, s, more[0], s.sends[k].hash.value, s.sends[k].res);
      StandingRowStep(c, s, more[0], k);
      hide Step;
      hide SendsWith;
    }
  }

  lemma SendsGrow(c: Config, s: State, a: Action)
    requires forall p :: p in s.posts ==> p < s.nextPost
    ensures s.sends <= Step(c, s, a).sends
  {
    if Enabled(c, s, a) {
      match a
      case World(e) => EventKeepsLogs(c, s, e);
      case OfRun(j, m) => MoveFrame(c, s, j, m);
    }
    hide EventEffect;
    hide MoveEffect;
  }

  lemma {:induction false} SendsGrowRun(c: Config, s: State, run: seq<Action>)
    requires Base(c, s)
    ensures s.sends <= Run(c, s, run).sends
    decreases |run|
  {
    if run != [] {
      SendsGrow(c, s, run[0]);
      BaseStep(c, s, run[0]);
      SendsGrowRun(c, Step(c, s, run[0]), run[1..]);
    }
    hide Step;
  }

  /** Over every continuation that leaves a send's row in the table no further send of its hash is made. */
  lemma NoSendWhileRowStands(c: Config, run: seq<Action>, more: seq<Action>, k: nat)
    requires Sound(c) && k < |Run(c, Init(), run).sends|
    requires RowStands(Run(c, Run(c, Init(), run), more), k)
    ensures var s := Run(c, Init(), run); var t := Run(c, s, more);
            s.sends <= t.sends && SendsWith(t.sends, t.sends[k].hash) == SendsWith(s.sends, t.sends[k].hash)
  {
    InitHolds(c);
    IndexRun(c, Init(), run);
    var s := Run(c, Init(), run);
    SendsGrowRun(c, s, more);
    StandingRowRun(c, s, more, k);
  }

  // ---- How a later run ends ----

  /** Nothing cuts run `j` short: no exception, no crash, and its channel is there. */
  predicate Uninterrupted(a: Action, j: JobId) {
    a.OfRun? && a.job == j ==> !a.move.Raise? && !a.move.Crash? && !a.move.NoChannel?
  }

  /** The run has not read its post yet, or read `h` and has yet to find it taken and say so. */
  predicate Heading(s: State, j: JobId, h: Hash) {
    j in s.jobs &&
    var job := s.jobs[j];
    || job.phase.AtGate?
    || (job.hash == Some(h) &&
        (job.phase.AtClaim? || job.phase.AtCheck? || job.phase.AtReserve? || job.phase.AtMarkDuplicate?))
  }

  /** The run returns here, refused at the gate. */
  predicate EndsRefused(c: Config, s: State, a: Action, j: JobId) {
    a == OfRun(j, Advance) && MoveEnabled(c, s, j, Advance) && s.jobs[j].phase.AtGate? && !GatePasses(s, s.jobs[j].post)
  }

  /** The run returns here as a duplicate, its post rejected. */
  predicate EndsDuplicate(c: Config, s: State, a: Action, j: JobId) {
    a == OfRun(j, Advance) && MoveEnabled(c, s, j, Advance) && s.jobs[j].phase.AtMarkDuplicate? &&
    (s.jobs[j].post in s.posts ==> Step(c, s, a).posts[s.jobs[j].post].state.Rejected?)
  }

  ghost predicate HasHash(s: State, p: PostId, h: Hash) {
    p < s.nextPost && (p in s.posts ==> s.posts[p].hash == Some(h))
  }

  lemma HeadingMove(c: Config, s: State, m: Move, j: JobId, h: Hash)
    requires Heading(s, j, h) && h in s.rows && HasHash(s, s.jobs[j].post, h) && MoveEnabled(c, s, j, m)
    requires Uninterrupted(OfRun(j, m), j)
    ensures var t := MoveEffect(c, s, j, m); var a := OfRun(j, m);
            t.sends == s.sends &&
            if j in t.jobs then Heading(t, j, h) && t.jobs[j].post == s.jobs[j].post
            else EndsRefused(c, s, a, j) || EndsDuplicate(c, s, a, j)
  {
  }

  lemma HeadingOther(c: Config, s: State, i: JobId, m: Move, j: JobId)
    requires MoveEnabled(c, s, i, m) && i != j && j in s.jobs
    ensures var t := MoveEffect(c, s, i, m);
            j in t.jobs && t.jobs[j] == s.jobs[j] &&
            (t.sends == s.sends || (|t.sends| == |s.sends| + 1 && t.sends[|s.sends|].job == i))
  {
    if TransactionMove(m) { CommitFrame(s, i); }
  }

  /** No send of run `j` from position `from` of the log on. */
  ghost predicate NoneBy(sends: seq<Send>, from: nat, j: JobId) {
    forall k :: from <= k < |sends| ==> sends[k].job != j
  }

  /** The hash has a row now and after each action. */
  ghost predicate RowStays(c: Config, s: State, run: seq<Action>, h: Hash)
    decreases |run|
  {
    h in s.rows && (run == [] || RowStays(c, Step(c, s, run[0]), run[1..], h))
  }

  /** Action `n` of the continuation is where the run returned, refused or as a duplicate. */
  ghost predicate EndsAt(c: Config, s: State, run: seq<Action>, n: nat, j: JobId) {
    n < |run| &&
    var u := Run(c, s, run[..n]);
    EndsRefused(c, u, run[n], j) || EndsDuplicate(c, u, run[n], j)
  }

  lemma HashStays(c: Config, s: State, a: Action, p: PostId, h: Hash)
    requires Base(c, s) && Settled(s) && Disciplined(s, a) && HasHash(s, p, h)
    ensures Settled(Step(c, s, a)) && HasHash(Step(c, s, a), p, h)
  {
    StepPosts(c, s, a, p);
    if Enabled(c, s, a) {
      match a
      case World(e) =>
        EventSettled(c, s, e);
        if p in s.posts && p in EventEffect(c, s, e).posts { EventHashKept(c, s, e, p); }
      case OfRun(j, m) =>
        MoveSettled(c, s, j, m);
        MoveFrame(c, s, j, m);
    }
    hide EventEffect;
    hide MoveEffect;
    hide Settled;
  }

  /** One step of anyone: the run heads on, or returns refused or as a duplicate; it sends nothing. */
  lemma HeadingStep(c: Config, s: State, a: Action, j: JobId, h: Hash)
    requires Base(c, s) && Heading(s, j, h) && h in s.rows && HasHash(s, s.jobs[j].post, h) && Uninterrupted(a, j)
    ensures var t := Step(c, s, a);
            NoneBy(t.sends, |s.sends|, j) &&
            if j in t.jobs then Heading(t, j, h) && t.jobs[j].post == s.jobs[j].post
            else EndsRefused(c, s, a, j) || EndsDuplicate(c, s, a, j)
  {
    if Enabled(c, s, a) {
      match a
      case World(e) => HeadingEvent(c, s, e, j);
      case OfRun(i, m) => if i == j { HeadingMove(c, s, m, j, h); } else { HeadingOther(c, s, i, m, j); }
    }
    hide EventEffect;
    hide MoveEffect;
  }

  lemma HeadingEvent(c: Config, s: State, e: Event, j: JobId)
    requires EventEnabled(c, s, e) && (forall p :: p in s.posts ==> p < s.nextPost) && j in s.jobs && j < s.nextJob
    ensures var t := EventEffect(c, s, e); t.sends == s.sends && j in t.jobs && t.jobs[j] == s.jobs[j]
  {
    EventKeepsLogs(c, s, e);
    if !e.Start? {
      EventFrame(c, s, e);
      hide EventEffect;
    }
  }

  lemma ReturnedStep(c: Config, s: State, a: Action, j: JobId)
    requires Base(c, s) && j !in s.jobs && j < s.nextJob
    ensures var t := Step(c, s, a); j !in t.jobs && j < t.nextJob && NoneBy(t.sends, |s.sends|, j)
  {
    if Enabled(c, s, a) {
      match a
      case World(e) =>
        EventKeepsLogs(c, s, e);
        if !e.Start? { EventFrame(c, s, e); hide EventEffect; }
      case OfRun(i, m) =>
        MoveSends(c, s, i, m);
        MoveFrame(c, s, i, m);
        hide MoveEffect;
    }
  }

  lemma MoveSends(c: Config, s: State, i: JobId, m: Move)
    requires MoveEnabled(c, s, i, m)
    ensures var t := MoveEffect(c, s, i, m);
            t.sends == s.sends || (|t.sends| == |s.sends| + 1 && t.sends[|s.sends|].job == i)
  {
    if TransactionMove(m) { CommitFrame(s, i); }
  }

  lemma {:induction false} ReturnedRun(c: Config, s: State, run: seq<Action>, j: JobId)
    requires Base(c, s) && j !in s.jobs && j < s.nextJob
    ensures j !in Run(c, s, run).jobs && NoneBy(Run(c, s, run).sends, |s.sends|, j)
    decreases |run|
  {
    if run != [] {
      var n := Step(c, s, run[0]);
      BaseStep(c, s, run[0]);
      ReturnedStep(c, s, run[0], j);
      SendsGrow(c, s, run[0]);
      ReturnedRun(c, n, run[1..], j);
      SendsGrowRun(c, n, run[1..]);
      hide Step;
    }
  }

  lemma {:induction false} HeadingRun(c: Config, s: State, run: seq<Action>, j: JobId, h: Hash)
    requires Base(c, s) && Settled(s) && DisciplinedRun(c, s, run) && RowStays(c, s, run, h)
    requires Heading(s, j, h) && HasHash(s, s.jobs[j].post, h)
    requires forall i :: 0 <= i < |run| ==> Uninterrupted(run[i], j)
    ensures var t := Run(c, s, run);
            NoneBy(t.sends, |s.sends|, j) &&
            if j in t.jobs then Heading(t, j, h) else exists n: nat :: EndsAt(c, s, run, n, j)
    decreases |run|
  {
    if run != [] {
      var a, rest, n := run[0], run[1..], Step(c, s, run[0]);
      BaseStep(c, s, a);
      HeadingStep(c, s, a, j, h);
      HashStays(c, s, a, s.jobs[j].post, h);
      SendsGrow(c, s, a);
      SendsGrowRun(c, n, rest);
      KnownJob(c, s, j);
      if j in n.jobs {
        HeadingRun(c, n, rest, j, h);
        if j !in Run(c, s, run).jobs {
          var i: nat :| EndsAt(c, n, rest, i, j);
          EndsLater(c, s, run, i, j);
        }
      } else {
        ReturnedStart(c, s, a, j);
        ReturnedRun(c, n, rest, j);
        assert run[..0] == [];
        assert EndsAt(c, s, run, 0, j);
      }
    }
  }

  lemma EndsLater(c: Config, s: State, run: seq<Action>, i: nat, j: JobId)
    requires run != [] && EndsAt(c, Step(c, s, run[0]), run[1..], i, j)
    ensures EndsAt(c, s, run, i + 1, j)
  {
    assert run[..i + 1][1..] == run[1..][..i] && run[..i + 1][0] == run[0];
    hide Step;
  }

  lemma ReturnedStart(c: Config, s: State, a: Action, j: JobId)
    requires Base(c, s) && j in s.jobs
    ensures j < Step(c, s, a).nextJob
  {
    KnownJob(c, s, j);
    if Enabled(c, s, a) {
      match a
      case World(e) => if !e.Start? { EventFrame(c, s, e); hide EventEffect; }
      case OfRun(i, m) => MoveFrame(c, s, i, m); hide MoveEffect;
    }
  }

  /**
   In disciplined runs, whatever the others do: a run that starts while its post's hash
   has a row, and that nothing cuts short, sends nothing as long as the row is there; it
   is still on its way to the duplicate mark or has returned, refused at the gate or as a
   duplicate with its post rejected.
   */
  lemma LaterRunEnds(c: Config, run: seq<Action>, more: seq<Action>, j: JobId, h: Hash)
    requires DisciplinedRun(c, Init(), run) && DisciplinedRun(c, Run(c, Init(), run), more)
    requires RowStays(c, Run(c, Init(), run), more, h)
    requires var s := Run(c, Init(), run); j in s.jobs && s.jobs[j].phase.AtGate? && HasHash(s, s.jobs[j].post, h)
    requires forall i :: 0 <= i < |more| ==> Uninterrupted(more[i], j)
    ensures var s := Run(c, Init(), run); var t := Run(c, s, more);
            NoneBy(t.sends, |s.sends|, j) &&
            if j in t.jobs then Heading(t, j, h) else exists n: nat :: EndsAt(c, s, more, n, j)
  {
    InitHolds(c);
    SettledRun(c, Init(), run);
    HeadingRun(c, Run(c, Init(), run), more, j, h);
  }
}
