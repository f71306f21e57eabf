/**
 Undisturbed stretches of a publish run, and what two of them in a row achieve: a run
 whose send fails leaves everything ready for the next run to send again.
 */
module ProtocolSegments {
  import opened Options
  import opened Protocol
  import opened ProtocolInvariants
  import opened ProtocolFrames
  import opened ProtocolTheorems
  import opened ProtocolWriteOnce

  lemma RunOne(c: Config, s: State, a: Action)
    requires Disciplined(s, a)
    ensures Run(c, s, [a]) == Step(c, s, a) && DisciplinedRun(c, s, [a])
  {
    assert Run(c, Step(c, s, a), [a][1..]) == Step(c, s, a);
  }

  lemma {:induction false} DisciplinedConcat(c: Config, s: State, first: seq<Action>, second: seq<Action>)
    requires DisciplinedRun(c, s, first) && DisciplinedRun(c, Run(c, s, first), second)
    ensures DisciplinedRun(c, s, first + second) && Run(c, s, first + second) == Run(c, Run(c, s, first), second)
    decreases |first|
  {
    if first == [] {
      assert first + second == second;
    } else {
      assert (first + second)[1..] == first[1..] + second;
      DisciplinedConcat(c, Step(c, s, first[0]), first[1..], second);
    }
  }

  lemma RunNext(c: Config, s: State, run: seq<Action>, a: Action)
    requires DisciplinedRun(c, s, run) && Disciplined(Run(c, s, run), a)
    ensures DisciplinedRun(c, s, run + [a]) && Run(c, s, run + [a]) == Step(c, Run(c, s, run), a)
  {
    RunOne(c, Run(c, s, run), a);
    DisciplinedConcat(c, s, run, [a]);
  }

  lemma TickStep(c: Config, s: State, d: nat)
    ensures Step(c, s, World(Tick(d))) == s.(now := s.now + d)
  {
  }

  lemma PruneStep(c: Config, s: State, cutoff: int)
    requires cutoff <= s.now - c.lookback
    ensures Step(c, s, World(Prune(cutoff))) == PruneTx(s, cutoff)
  {
  }

  lemma ApproveStep(c: Config, s: State, p: PostId, inline: bool)
    requires p in s.posts
    ensures Step(c, s, World(Approve(p, inline))) == ApproveTx(s, p, inline)
  {
  }

  lemma SendOkStep(c: Config, s: State, j: JobId, id: nat)
    requires MoveEnabled(c, s, j, AttemptOk(id))
    ensures Step(c, s, OfRun(j, AttemptOk(id))) == SendOk(s, j, id)
  {
  }

  lemma AcquireStep(c: Config, s: State, j: JobId)
    requires MoveEnabled(c, s, j, AcquireLock)
    ensures Step(c, s, OfRun(j, AcquireLock)) == Acquire(c, s, j)
  {
  }

  lemma BeginStep(c: Config, s: State, j: JobId)
    requires MoveEnabled(c, s, j, BeginAttempt)
    ensures Step(c, s, OfRun(j, BeginAttempt)) == Begin(s, j)
  {
  }

  lemma AdvanceStep(c: Config, s: State, j: JobId)
    requires MoveEnabled(c, s, j, Advance)
    ensures Step(c, s, OfRun(j, Advance)) == AdvanceJob(s, j)
  {
  }

  // ---- Start and gate ----

  function Entering(s: State, p: PostId): seq<Action> {
    [World(Start(p))] + [OfRun(s.nextJob, Advance)] + [OfRun(s.nextJob, Advance)]
  }

  function Entered(s: State, p: PostId): State
    requires GatePasses(s, p)
  {
    var hash := s.posts[p].hash;
    ClaimTx(s, p).(jobs := s.jobs[s.nextJob := Job(p, s.now, hash, 0, if hash.Some? then AtCheck else AwaitLock)],
                   nextJob := s.nextJob + 1)
  }

  /** The run has read the post and has yet to write `publishing`. */
  function Read(s: State, p: PostId): State
    requires p in s.posts
  {
    s.(jobs := s.jobs[s.nextJob := Job(p, s.now, s.posts[p].hash, 0, AtClaim)], nextJob := s.nextJob + 1)
  }

  lemma StartStep(c: Config, s: State, p: PostId)
    requires p in s.queue
    ensures Step(c, s, World(Start(p))) == StartJob(s, p)
  {
  }

  lemma ReadStep(c: Config, s: State, j: JobId)
    requires Live(c, s, j) && s.jobs[j].phase.AtGate? && GatePasses(s, s.jobs[j].post)
    ensures Step(c, s, OfRun(j, Advance))
         == SetJob(s, j, s.jobs[j].(hash := s.posts[s.jobs[j].post].hash, phase := AtClaim))
  {
    AdvanceStep(c, s, j);
  }

  lemma ClaimStep(c: Config, s: State, j: JobId)
    requires Live(c, s, j) && s.jobs[j].phase.AtClaim? && s.jobs[j].post in s.posts
    ensures Step(c, s, OfRun(j, Advance))
         == GoTo(ClaimTx(s, s.jobs[j].post), j, if s.jobs[j].hash.Some? then AtCheck else AwaitLock)
  {
    AdvanceStep(c, s, j);
  }

  lemma Enters(c: Config, s: State, p: PostId)
    requires p in s.queue && GatePasses(s, p)
    ensures DisciplinedRun(c, s, Entering(s, p)) && Run(c, s, Entering(s, p)) == Entered(s, p)
  {
    var j := s.nextJob;
    var t, u := StartJob(s, p), Read(s, p);
    RunOne(c, s, World(Start(p)));
    StartStep(c, s, p);
    RunNext(c, s, [World(Start(p))], OfRun(j, Advance));
    RunNext(c, s, [World(Start(p))] + [OfRun(j, Advance)], OfRun(j, Advance));
    ReadStep(c, t, j);
    assert t.jobs[j := u.jobs[j]] == u.jobs;
    ClaimStep(c, u, j);
    assert u.jobs[j := Entered(s, p).jobs[j]] == Entered(s, p).jobs;
    hide Step;
    hide Run;
    hide DisciplinedRun;
  }

  // ---- Check and reserve ----

  function Reserving(j: JobId): seq<Action> {
    [OfRun(j, Advance)] + [OfRun(j, Advance)]
  }

  function HasReserved(s: State, j: JobId): State
    requires j in s.jobs && s.jobs[j].hash.Some?
  {
    ReserveTx(s, j, s.jobs[j].hash.value)
    .(jobs := s.jobs[j := s.jobs[j].(res := |s.history|, phase := AwaitLock)])
  }

  lemma CheckStep(c: Config, s: State, j: JobId)
    requires Live(c, s, j) && s.jobs[j].phase.AtCheck? && s.jobs[j].hash.Some? && s.jobs[j].hash.value !in s.rows
    ensures Step(c, s, OfRun(j, Advance)) == GoTo(s, j, AtReserve)
  {
    AdvanceStep(c, s, j);
  }

  lemma ReserveStep(c: Config, s: State, j: JobId)
    requires Live(c, s, j) && s.jobs[j].phase.AtReserve? && s.jobs[j].hash.Some? && s.jobs[j].hash.value !in s.rows
    ensures Step(c, s, OfRun(j, Advance)) == HasReserved(s, j)
  {
    AdvanceStep(c, s, j);
  }

  lemma Reserves(c: Config, s: State, j: JobId)
    requires Live(c, s, j) && s.jobs[j].phase.AtCheck? && s.jobs[j].hash.Some? && s.jobs[j].hash.value !in s.rows
    ensures DisciplinedRun(c, s, Reserving(j)) && Run(c, s, Reserving(j)) == HasReserved(s, j)
  {
    var t := GoTo(s, j, AtReserve);
    RunOne(c, s, OfRun(j, Advance));
    CheckStep(c, s, j);
    RunNext(c, s, [OfRun(j, Advance)], OfRun(j, Advance));
    ReserveStep(c, t, j);
    assert t.jobs[j := HasReserved(s, j).jobs[j]] == HasReserved(s, j).jobs;
    hide Step;
    hide Run;
    hide DisciplinedRun;
  }

  // ---- Lock, spacing and first attempt ----

  function Attempting(c: Config, j: JobId): seq<Action> {
    [OfRun(j, AcquireLock)] + [World(Tick(c.spacing))] + [OfRun(j, BeginAttempt)]
  }

  function InAttempt(c: Config, s: State, j: JobId): State
    requires j in s.jobs
  {
    s.(now := s.now + c.spacing, lock := Some(j), jobs := s.jobs[j := s.jobs[j].(phase := Sending(false))],
       attempts := s.attempts + [Attempt(j, false, s.now + c.spacing, None, None)])
  }

  lemma Attempts(c: Config, s: State, j: JobId)
    requires Live(c, s, j) && s.jobs[j].phase.AwaitLock? && s.lock.None?
    requires s.now + c.spacing <= s.jobs[j].start + c.timeout
    ensures DisciplinedRun(c, s, Attempting(c, j)) && Run(c, s, Attempting(c, j)) == InAttempt(c, s, j)
  {
    var u := Acquire(c, s, j);
    var t := u.(now := s.now + c.spacing);
    RunOne(c, s, OfRun(j, AcquireLock));
    AcquireStep(c, s, j);
    RunNext(c, s, [OfRun(j, AcquireLock)], World(Tick(c.spacing)));
    TickStep(c, u, c.spacing);
    RunNext(c, s, [OfRun(j, AcquireLock)] + [World(Tick(c.spacing))], OfRun(j, BeginAttempt));
    BeginStep(c, t, j);
    assert t.jobs[j := InAttempt(c, s, j).jobs[j]] == InAttempt(c, s, j).jobs;
  }

  // ---- Recovery ----

  /** The failing run's last three transactions: the send error, the release, the failure handler. */
  function Failing(j: JobId): seq<Action> {
    [OfRun(j, AttemptFails)] + [OfRun(j, Advance)] + [OfRun(j, Advance)]
  }

  function Failed(s: State, j: JobId): State
    requires j in s.jobs
  {
    var job := s.jobs[j];
    FailureTx(ReleaseTx(s, job.hash, job.res), job.post)
    .(jobs := s.jobs - {j}, lock := None, attempts := Closed(s.attempts, s.now, None))
  }

  lemma SendErrorStep(c: Config, s: State, j: JobId)
    requires MoveEnabled(c, s, j, AttemptFails)
    ensures Step(c, s, OfRun(j, AttemptFails)) == EndSection(s, j, AtRelease)
  {
  }

  lemma ReleaseStep(c: Config, s: State, j: JobId)
    requires Live(c, s, j) && s.jobs[j].phase.AtRelease?
    ensures Step(c, s, OfRun(j, Advance)) == GoTo(ReleaseTx(s, s.jobs[j].hash, s.jobs[j].res), j, AtFailure)
  {
    AdvanceStep(c, s, j);
  }

  lemma FailureStep(c: Config, s: State, j: JobId)
    requires Live(c, s, j) && s.jobs[j].phase.AtFailure?
    ensures Step(c, s, OfRun(j, Advance)) == FailureTx(s, s.jobs[j].post).(jobs := s.jobs - {j})
  {
    AdvanceStep(c, s, j);
  }

  lemma Fails(c: Config, s: State, j: JobId)
    requires Live(c, s, j) && s.jobs[j].phase.Sending?
    ensures DisciplinedRun(c, s, Failing(j)) && Run(c, s, Failing(j)) == Failed(s, j)
  {
    var u := EndSection(s, j, AtRelease);
    var v := GoTo(ReleaseTx(u, s.jobs[j].hash, s.jobs[j].res), j, AtFailure);
    RunOne(c, s, OfRun(j, AttemptFails));
    SendErrorStep(c, s, j);
    RunNext(c, s, [OfRun(j, AttemptFails)], OfRun(j, Advance));
    ReleaseStep(c, u, j);
    RunNext(c, s, [OfRun(j, AttemptFails)] + [OfRun(j, Advance)], OfRun(j, Advance));
    FailureStep(c, v, j);
    assert v.jobs - {j} == s.jobs - {j};
    hide Step;
    hide Run;
    hide DisciplinedRun;
  }

  /** The next run for the post, undisturbed, from its start to its first attempt. */
  function Retrying(c: Config, s: State, p: PostId): seq<Action> {
    Entering(s, p) + Reserving(s.nextJob) + Attempting(c, s.nextJob)
  }

  function Retried(c: Config, s: State, p: PostId): State
    requires GatePasses(s, p) && s.posts[p].hash.Some?
  {
    InAttempt(c, HasReserved(Entered(s, p), s.nextJob), s.nextJob)
  }

  lemma Retries(c: Config, s: State, p: PostId)
    requires c.spacing <= c.timeout && p in s.queue && GatePasses(s, p) && s.lock.None?
    requires s.posts[p].hash.Some? && s.posts[p].hash.value !in s.rows
    ensures DisciplinedRun(c, s, Retrying(c, s, p)) && Run(c, s, Retrying(c, s, p)) == Retried(c, s, p)
  {
    var k := s.nextJob;
    Enters(c, s, p);
    var v := Entered(s, p);
    Reserves(c, v, k);
    var w := HasReserved(v, k);
    Attempts(c, w, k);
    DisciplinedConcat(c, s, Entering(s, p), Reserving(k));
    DisciplinedConcat(c, s, Entering(s, p) + Reserving(k), Attempting(c, k));
  }

  /**
   A failed send leaves the hash absent and the post in `publish_failed`; the next
   run, if undisturbed, reserves it again and reaches the send.
   */
  lemma FailureIsRepeatable(c: Config, s: State, j: JobId)
    requires c.spacing <= c.timeout && Base(c, s) && Live(c, s, j) && s.jobs[j].phase.Sending? && s.jobs[j].hash.Some?
    requires s.jobs[j].post in s.posts && s.jobs[j].post in s.queue
    requires s.posts[s.jobs[j].post].messageId.None? && s.posts[s.jobs[j].post].hash == s.jobs[j].hash
    ensures var p, h := s.jobs[j].post, s.jobs[j].hash.value;
            var u := Run(c, s, Failing(j));
            h !in u.rows && j !in u.jobs && p in u.posts && u.posts[p] == s.posts[p].(state := PublishFailed)
    ensures var p, h, k := s.jobs[j].post, s.jobs[j].hash.value, s.nextJob;
            var t := Run(c, s, Failing(j) + Retrying(c, Failed(s, j), p));
            k in t.jobs && t.jobs[k].phase == Sending(false) && t.jobs[k].post == p && t.jobs[k].hash == Some(h) &&
            Live(c, t, k) && h in t.rows && t.rows[h].id == t.jobs[k].res
  {
    var p := s.jobs[j].post;
    Fails(c, s, j);
    Retries(c, Failed(s, j), p);
    DisciplinedConcat(c, s, Failing(j), Retrying(c, Failed(s, j), p));
  }

  // ---- The whole way, and the two ways it is cut short ----

  /** After the send: the mark and the card. */
  function Finishing(j: JobId, id: nat): seq<Action> {
    [OfRun(j, AttemptOk(id))] + [OfRun(j, Advance)] + [OfRun(j, Advance)]
  }

  lemma MarkStep(c: Config, s: State, j: JobId)
    requires Live(c, s, j) && s.jobs[j].phase.AtMark?
    ensures Step(c, s, OfRun(j, Advance))
         == GoTo(MarkPublishedTx(s, j, s.jobs[j].post, s.jobs[j].phase.id, s.jobs[j].hash), j, AtCard)
  {
    AdvanceStep(c, s, j);
  }

  lemma CardStep(c: Config, s: State, j: JobId)
    requires Live(c, s, j) && s.jobs[j].phase.AtCard?
    ensures Step(c, s, OfRun(j, Advance)) == Finish(s, j)
  {
    AdvanceStep(c, s, j);
  }

  lemma Finishes(c: Config, s: State, j: JobId, id: nat)
    requires Live(c, s, j) && s.jobs[j].phase.Sending? && s.jobs[j].post in s.posts && id != 0
    requires s.jobs[j].hash.Some? && s.jobs[j].hash.value in s.rows
    ensures var p := s.jobs[j].post; var t := Run(c, s, Finishing(j, id));
            DisciplinedRun(c, s, Finishing(j, id)) &&
            t.posts == s.posts[p := s.posts[p].(state := Published, messageId := Some(id))] &&
            t.rows == s.rows && t.jobs == s.jobs - {j} && t.lock.None? &&
            t.sends == s.sends + [Send(j, p, s.jobs[j].hash, s.jobs[j].res, id, s.now)]
  {
    var u := SendOk(s, j, id);
    var v := GoTo(MarkPublishedTx(u, j, s.jobs[j].post, id, s.jobs[j].hash), j, AtCard);
    RunOne(c, s, OfRun(j, AttemptOk(id)));
    SendOkStep(c, s, j, id);
    RunNext(c, s, [OfRun(j, AttemptOk(id))], OfRun(j, Advance));
    MarkStep(c, u, j);
    RunNext(c, s, [OfRun(j, AttemptOk(id))] + [OfRun(j, Advance)], OfRun(j, Advance));
    CardStep(c, v, j);
    hide Step;
    hide Run;
    hide DisciplinedRun;
  }

  /** Undisturbed, a run for a post with a free hash that the gate lets through publishes it under Telegram's id. */
  lemma PublishesUndisturbed(c: Config, s: State, p: PostId, id: nat)
    requires c.spacing <= c.timeout && p in s.queue && GatePasses(s, p) && s.lock.None? && id != 0
    requires s.posts[p].hash.Some? && s.posts[p].hash.value !in s.rows
    ensures var t := Run(c, s, Retrying(c, s, p) + Finishing(s.nextJob, id)); var h := s.posts[p].hash.value;
            p in t.posts && t.posts[p] == s.posts[p].(state := Published, messageId := Some(id)) &&
            h in t.rows && t.rows[h] == Row(|s.history|, s.now) && t.lock.None? && s.nextJob !in t.jobs &&
            t.sends == s.sends + [Send(s.nextJob, p, Some(h), |s.history|, id, s.now + c.spacing)]
  {
    hide Run;
    hide Step;
    hide DisciplinedRun;
    hide Retrying;
    hide Finishing;
    Retries(c, s, p);
    RetriedAtSend(c, s, p);
    Finishes(c, Retried(c, s, p), s.nextJob, id);
    DisciplinedConcat(c, s, Retrying(c, s, p), Finishing(s.nextJob, id));
    hide Retried;
  }

  lemma RetriedAtSend(c: Config, s: State, p: PostId)
    requires c.spacing <= c.timeout && GatePasses(s, p) && s.posts[p].hash.Some? && s.posts[p].hash.value !in s.rows
    ensures var t, j, h := Retried(c, s, p), s.nextJob, s.posts[p].hash.value;
            Live(c, t, j) && t.jobs[j] == Job(p, s.now, Some(h), |s.history|, Sending(false)) &&
            t.posts == s.posts[p := s.posts[p].(state := Publishing)] &&
            t.rows == s.rows[h := Row(|s.history|, s.now)] &&
            t.now == s.now + c.spacing && t.sends == s.sends
  {
  }

  /** A run that finds its hash taken rejects its post and ends, leaving the table and the send log alone. */
  lemma TakenHashRejects(c: Config, s: State, j: JobId)
    requires Live(c, s, j) && (s.jobs[j].phase.AtCheck? || s.jobs[j].phase.AtReserve?) && s.jobs[j].post in s.posts
    requires s.jobs[j].hash.Some? && s.jobs[j].hash.value in s.rows
    ensures Run(c, s, [OfRun(j, Advance)] + [OfRun(j, Advance)])
         == SetPost(s, s.jobs[j].post, s.posts[s.jobs[j].post].(state := Rejected)).(jobs := s.jobs - {j})
  {
    var t := GoTo(s, j, AtMarkDuplicate);
    RunOne(c, s, OfRun(j, Advance));
    RunNext(c, s, [OfRun(j, Advance)], OfRun(j, Advance));
    AdvanceStep(c, s, j);
    AdvanceStep(c, t, j);
    assert t.jobs - {j} == s.jobs - {j};
  }

  /** Two runs that both read before either writes. */
  function RacingReads(s: State, p: PostId): seq<Action> {
    var i, j := s.nextJob, s.nextJob + 1;
    [World(Start(p)), World(Start(p)), OfRun(i, Advance), OfRun(j, Advance), OfRun(i, Advance), OfRun(j, Advance)]
  }

  /** The gate alone keeps nobody out: both runs pass it and go on with the same hash. */
  lemma GateLetsBothPass(c: Config, s: State, p: PostId)
    requires p in s.queue && GatePasses(s, p)
    ensures var t := Run(c, s, RacingReads(s, p)); var i, j := s.nextJob, s.nextJob + 1;
            i in t.jobs && j in t.jobs && Active(t.jobs[i].phase) && Active(t.jobs[j].phase) &&
            t.jobs[i].post == p && t.jobs[j].post == p &&
            t.jobs[i].hash == s.posts[p].hash && t.jobs[j].hash == s.posts[p].hash
  {
    var i, j := s.nextJob, s.nextJob + 1;
    hide Step;
    hide Run;
    StartStep(c, s, p);
    var s1 := StartJob(s, p);
    StartStep(c, s1, p);
    var s2 := StartJob(s1, p);
    ReadStep(c, s2, i);
    var s3 := Step(c, s2, OfRun(i, Advance));
    ReadStep(c, s3, j);
    var s4 := Step(c, s3, OfRun(j, Advance));
    ClaimStep(c, s4, i);
    var s5 := Step(c, s4, OfRun(i, Advance));
    ClaimStep(c, s5, j);
    SixSteps(c, s, World(Start(p)), World(Start(p)), OfRun(i, Advance), OfRun(j, Advance),
             OfRun(i, Advance), OfRun(j, Advance));
  }

  lemma SixSteps(c: Config, s: State, a1: Action, a2: Action, a3: Action, a4: Action, a5: Action, a6: Action)
    ensures Run(c, s, [a1, a2, a3, a4, a5, a6])
         == Step(c, Step(c, Step(c, Step(c, Step(c, Step(c, s, a1), a2), a3), a4), a5), a6)
  {
    hide Step;
    var run := [a1, a2, a3, a4, a5, a6];
    assert run[1..] == [a2, a3, a4, a5, a6] && run[1..][1..] == [a3, a4, a5, a6] && run[1..][1..][1..] == [a4, a5, a6];
    assert [a4, a5, a6][1..] == [a5, a6] && [a5, a6][1..] == [a6] && [a6][1..] == [];
    var t := Step(c, Step(c, Step(c, s, a1), a2), a3);
    assert Run(c, Step(c, t, a4), [a5, a6]) == Run(c, Step(c, Step(c, t, a4), a5), [a6]);
    assert Run(c, t, [a4, a5, a6]) == Step(c, Step(c, Step(c, t, a4), a5), a6);
    assert Run(c, Step(c, s, a1), [a2, a3, a4, a5, a6]) == Run(c, Step(c, Step(c, s, a1), a2), [a3, a4, a5, a6]);
  }
}
