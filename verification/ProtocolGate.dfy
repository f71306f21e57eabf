/**
 When the gate does keep runs out. It reads and then writes, so runs that have both read
 before either wrote are past it; but a run that reads a post the gate refuses stays out,
 and the gate refuses it until an editor decides again or a failure handler commits.
 */
module ProtocolGate {
  import opened Options
  import opened Protocol
  import opened ProtocolInvariants
  import opened ProtocolFrames
  import opened ProtocolTheorems
  import opened ProtocolSegments
  import opened ProtocolAsWritten

  // ---- What opens the gate ----

  /** An editor approves or schedules `p`, or the failure handler of a run for `p` commits. */
  predicate Opens(s: State, a: Action, p: PostId) {
    match a
    case World(e) => (e.Approve? || e.Schedule?) && e.post == p
    case OfRun(j, m) =>
      (m.Advance? || m == Raise(true)) && j in s.jobs && s.jobs[j].post == p && s.jobs[j].phase.AtFailure?
  }

  lemma NormalizeKeepsGate(s: State, q: PostId, content: Hash, duplicate: bool, auto: bool, p: PostId)
    requires !GatePasses(s, p)
    ensures !GatePasses(NormalizeTx(s, q, content, duplicate, auto), p)
  {
  }

  lemma EventKeepsShut(c: Config, s: State, e: Event, p: PostId)
    requires p < s.nextPost && !GatePasses(s, p) && EventEnabled(c, s, e) && !Opens(s, World(e), p)
    ensures !GatePasses(EventEffect(c, s, e), p)
  {
    if e.NormalizeCommit? { NormalizeKeepsGate(s, e.post, e.content, e.duplicate, e.auto, p); }
    hide NormalizeTx;
    hide OverdueBatch;
  }

  lemma CommitKeepsShut(s: State, j: JobId, p: PostId)
    requires j in s.jobs && s.jobs[j].post == p && !GatePasses(s, p) && !s.jobs[j].phase.AtFailure?
    ensures !GatePasses(Commit(s, j), p)
  {
  }

  lemma MoveKeepsShut(c: Config, s: State, j: JobId, m: Move, p: PostId)
    requires !GatePasses(s, p) && MoveEnabled(c, s, j, m) && !Opens(s, OfRun(j, m), p)
    ensures !GatePasses(MoveEffect(c, s, j, m), p)
  {
    if s.jobs[j].post != p {
      OtherRunParked(c, s, j, m, p);
      MoveFrame(c, s, j, m);
      hide MoveEffect;
    } else if !s.jobs[j].phase.AtFailure? {
      CommitKeepsShut(s, j, p);
      hide Commit;
    }
  }

  /** What the gate refuses for its state it lets through again after these steps and no others. */
  lemma GateOpensExactly(c: Config, s: State, a: Action, p: PostId)
    requires p in s.posts && p < s.nextPost && s.posts[p].messageId.None? && !GatePasses(s, p)
    ensures GatePasses(Step(c, s, a), p) <==> Enabled(c, s, a) && Opens(s, a, p)
  {
    if Enabled(c, s, a) && !Opens(s, a, p) {
      match a
      case World(e) => EventKeepsShut(c, s, e, p);
      case OfRun(j, m) => MoveKeepsShut(c, s, j, m, p);
    }
    hide OverdueBatch;
  }

  ghost predicate NeverOpens(c: Config, s: State, run: seq<Action>, p: PostId)
    decreases |run|
  {
    run == [] || (!Opens(s, run[0], p) && NeverOpens(c, Step(c, s, run[0]), run[1..], p))
  }

  // ---- While it is shut ----

  /** The gate refuses `p`, and no run but `j` is past it. */
  ghost predicate Shut(s: State, p: PostId, j: JobId) {
    p < s.nextPost && !GatePasses(s, p) &&
    forall i :: i in s.jobs && s.jobs[i].post == p && Active(s.jobs[i].phase) ==> i == j
  }

  /** Every send of `p` that `t` logs beyond those of `s` is by run `j`. */
  ghost predicate SentOnlyBy(s: State, t: State, p: PostId, j: JobId) {
    s.sends <= t.sends &&
    forall k :: |s.sends| <= k < |t.sends| && t.sends[k].post == p ==> t.sends[k].job == j
  }

  lemma ShutStep(c: Config, s: State, a: Action, p: PostId, j: JobId)
    requires Shut(s, p, j) && !Opens(s, a, p)
    ensures Shut(Step(c, s, a), p, j) && SentOnlyBy(s, Step(c, s, a), p, j)
  {
    if Enabled(c, s, a) {
      match a
      case World(e) =>
        EventKeepsShut(c, s, e, p);
        EventKeepsGate(c, s, e);
        EventKeepsPostId(c, s, e, p);
      case OfRun(i, m) =>
        MoveKeepsShut(c, s, i, m, p);
        MoveFrame(c, s, i, m);
        NewSend(c, s, i, m);
    }
    hide EventEffect;
    hide MoveEffect;
  }

  lemma EventKeepsPostId(c: Config, s: State, e: Event, p: PostId)
    requires p < s.nextPost && EventEnabled(c, s, e)
    ensures p < EventEffect(c, s, e).nextPost
  {
  }

  /** A move adds no send, or one by its own run, which was past the gate. */
  lemma NewSend(c: Config, s: State, j: JobId, m: Move)
    requires MoveEnabled(c, s, j, m)
    ensures var t := MoveEffect(c, s, j, m);
            t.sends == s.sends ||
            (Active(s.jobs[j].phase) && exists id ::
               t.sends == s.sends + [Send(j, s.jobs[j].post, s.jobs[j].hash, s.jobs[j].res, id, s.now)])
  {
    if !m.AttemptOk? {
      MoveFrame(c, s, j, m);
      hide MoveEffect;
    }
  }

  /**
   Once the gate refuses a post and at most one run is past it, no other run gets past it
   or sends the post, until an editor decides again or a failure handler commits.
   */
  lemma {:induction false} GateKeepsOut(c: Config, s: State, run: seq<Action>, p: PostId, j: JobId)
    requires Shut(s, p, j) && NeverOpens(c, s, run, p)
    ensures Shut(Run(c, s, run), p, j) && SentOnlyBy(s, Run(c, s, run), p, j)
    decreases |run|
  {
    if run != [] {
      ShutStep(c, s, run[0], p, j);
      GateKeepsOut(c, Step(c, s, run[0]), run[1..], p, j);
      hide Step;
      hide Shut;
    }
  }

  lemma ClaimStepShuts(c: Config, s: State, j: JobId)
    requires MoveEnabled(c, s, j, Advance) && s.jobs[j].phase.AtClaim? && s.jobs[j].post < s.nextPost
    requires forall i :: i in s.jobs && s.jobs[i].post == s.jobs[j].post && Active(s.jobs[i].phase) ==> i == j
    ensures Shut(Step(c, s, OfRun(j, Advance)), s.jobs[j].post, j)
  {
    ClaimStep(c, s, j);
  }

  /**
   The double-publish guard: a run that writes `publishing` with no other run past the
   gate is the only one to send the post, at most once, until the gate is opened.
   */
  lemma ClaimGuards(c: Config, run: seq<Action>, more: seq<Action>, j: JobId)
    requires var s := Run(c, Init(), run);
             MoveEnabled(c, s, j, Advance) && s.jobs[j].phase.AtClaim? &&
             (forall i :: i in s.jobs && s.jobs[i].post == s.jobs[j].post && Active(s.jobs[i].phase) ==> i == j) &&
             NeverOpens(c, Step(c, s, OfRun(j, Advance)), more, s.jobs[j].post)
    ensures var s := Run(c, Init(), run); var t := Run(c, Step(c, s, OfRun(j, Advance)), more);
            s.sends <= t.sends &&
            (forall k :: |s.sends| <= k < |t.sends| && t.sends[k].post == s.jobs[j].post ==> t.sends[k].job == j) &&
            (forall a, b :: |s.sends| <= a < b < |t.sends| ==>
               t.sends[a].post != s.jobs[j].post || t.sends[b].post != s.jobs[j].post)
  {
    var s := Run(c, Init(), run);
    var n := Step(c, s, OfRun(j, Advance));
    InitHolds(c);
    BaseRun(c, Init(), run);
    ClaimStepShuts(c, s, j);
    ClaimStep(c, s, j);
    GateKeepsOut(c, n, more, s.jobs[j].post, j);
    BaseStep(c, s, OfRun(j, Advance));
    BaseRun(c, n, more);
    hide Run;
    hide Step;
    hide Shut;
  }

  // ---- A run that is cut off ----

  /** No run is past the gate for `p`, which is `publishing`, rejected or gone. */
  ghost predicate Stranded(s: State, p: PostId) {
    p < s.nextPost && (p in s.posts ==> s.posts[p].state.Publishing? || s.posts[p].state.Rejected?) &&
    forall i :: i in s.jobs && s.jobs[i].post == p ==> !Active(s.jobs[i].phase)
  }

  lemma EventKeepsStranded(c: Config, s: State, e: Event, p: PostId)
    requires Stranded(s, p) && EventEnabled(c, s, e) && !Opens(s, World(e), p)
    ensures Stranded(EventEffect(c, s, e), p) && EventEffect(c, s, e).sends == s.sends
  {
    EventKeepsGate(c, s, e);
    EventKeepsPostId(c, s, e, p);
    EventKeepsSkipped(c, s, e, p);
    hide EventEffect;
  }

  lemma EventKeepsSkipped(c: Config, s: State, e: Event, p: PostId)
    requires p < s.nextPost && (p in s.posts ==> s.posts[p].state.Publishing? || s.posts[p].state.Rejected?)
    requires EventEnabled(c, s, e) && !Opens(s, World(e), p)
    ensures var t := EventEffect(c, s, e);
            p in t.posts ==> t.posts[p].state.Publishing? || t.posts[p].state.Rejected?
  {
    if e.NormalizeCommit? { NormalizeStates(s, e.post, e.content, e.duplicate, e.auto); }
    hide OverdueBatch;
    hide NormalizeTx;
  }

  lemma NormalizeStates(s: State, q: PostId, content: Hash, duplicate: bool, auto: bool)
    ensures var t := NormalizeTx(s, q, content, duplicate, auto);
            t.posts.Keys == s.posts.Keys &&
            forall p :: p in s.posts ==> t.posts[p].state == s.posts[p].state || t.posts[p].state.Rejected?
  {
  }

  lemma MoveKeepsStranded(c: Config, s: State, j: JobId, m: Move, p: PostId)
    requires Stranded(s, p) && MoveEnabled(c, s, j, m) && !Opens(s, OfRun(j, m), p)
    ensures Stranded(MoveEffect(c, s, j, m), p)
    ensures SendsOf(MoveEffect(c, s, j, m).sends, p) == SendsOf(s.sends, p)
  {
    MoveFrame(c, s, j, m);
    if s.jobs[j].post != p {
      OtherRunParked(c, s, j, m, p);
      hide MoveEffect;
    } else {
      assert !GatePasses(s, p);
    }
  }

  lemma {:induction false} StrandedRun(c: Config, s: State, run: seq<Action>, p: PostId)
    requires Stranded(s, p) && NeverOpens(c, s, run, p)
    ensures Stranded(Run(c, s, run), p) && SendsOf(Run(c, s, run).sends, p) == SendsOf(s.sends, p)
    decreases |run|
  {
    if run != [] {
      if Enabled(c, s, run[0]) {
        match run[0]
        case World(e) => EventKeepsStranded(c, s, e, p);
        case OfRun(j, m) => MoveKeepsStranded(c, s, j, m, p);
      }
      StrandedRun(c, Step(c, s, run[0]), run[1..], p);
      hide Stranded;
      hide EventEffect;
      hide MoveEffect;
    }
  }

  /**
   A timeout skips the failure handler, so the post stays `publishing` (or is rejected or
   deleted) and is not sent, whoever starts runs for it, until an editor decides again.
   */
  lemma {:induction false} TimeoutStrands(c: Config, s: State, j: JobId, run: seq<Action>)
    requires j in s.jobs && s.jobs[j].post in s.posts
    requires var p := s.jobs[j].post;
             p < s.nextPost && s.posts[p].state.Publishing? &&
             (forall i :: i in s.jobs && s.jobs[i].post == p && Active(s.jobs[i].phase) ==> i == j) &&
             NeverOpens(c, Step(c, s, OfRun(j, Crash)), run, p)
    ensures var p := s.jobs[j].post; var t := Run(c, Step(c, s, OfRun(j, Crash)), run);
            SendsOf(t.sends, p) == SendsOf(s.sends, p) && !GatePasses(t, p) &&
            (p in t.posts ==> t.posts[p].state.Publishing? || t.posts[p].state.Rejected?)
  {
    assert Step(c, s, OfRun(j, Crash)) == CrashJob(s, j);
    StrandedRun(c, CrashJob(s, j), run, s.jobs[j].post);
  }

  /** The way on for a run cut off with its row in the table: approve, and have the next run reject the post. */
  function CutOff(s: State, j: JobId, p: PostId): seq<Action>
    requires j in s.jobs && p in s.posts
  {
    [OfRun(j, Crash)] + [World(Approve(p, false))] + Entering(ApproveTx(CrashJob(s, j), p, false), p) +
    [OfRun(s.nextJob, Advance)] + [OfRun(s.nextJob, Advance)]
  }

  /** An approval after such a timeout gets the post rejected as a duplicate of a delivery that was never made. */
  lemma CutOffIsRejected(c: Config, s: State, j: JobId)
    requires j in s.jobs && s.jobs[j].post in s.posts
    requires var p := s.jobs[j].post;
             p in s.queue && s.posts[p].messageId.None? &&
             s.posts[p].hash.Some? && s.posts[p].hash.value in s.rows
    ensures var p := s.jobs[j].post; var t := Run(c, s, CutOff(s, j, p));
            p in t.posts && t.posts[p].state.Rejected? && t.rows == s.rows && t.sends == s.sends
  {
    var p := s.jobs[j].post;
    var t := CrashJob(s, j);
    var u := ApproveTx(t, p, false);
    assert Step(c, s, OfRun(j, Crash)) == t;
    ApproveStep(c, t, p, false);
    RunPair(c, s, OfRun(j, Crash), World(Approve(p, false)));
    RetryRejects(c, u, p);
    var rest := Entering(u, p) + [OfRun(u.nextJob, Advance)] + [OfRun(u.nextJob, Advance)];
    RunConcat(c, s, [OfRun(j, Crash)] + [World(Approve(p, false))], rest);
    assert CutOff(s, j, p) == [OfRun(j, Crash)] + [World(Approve(p, false))] + rest;
    hide Run;
    hide Step;
  }

  lemma RunPair(c: Config, s: State, a: Action, b: Action)
    ensures Run(c, s, [a] + [b]) == Step(c, Step(c, s, a), b)
  {
    assert ([a] + [b])[1..] == [b] && [b][1..] == [];
    assert Run(c, Step(c, s, a), [b]) == Run(c, Step(c, Step(c, s, a), b), []);
  }
}
