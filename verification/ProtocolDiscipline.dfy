/**
 What the assumptions of the guarantees are for: each rule of the discipline, and the one
 exception that rejection does not survive, dropped in turn, with a run that breaks the
 guarantee.
 */
module ProtocolDiscipline {
  import opened Options
  import opened Protocol
  import opened ProtocolInvariants
  import opened ProtocolTheorems
  import opened ProtocolWriteOnce
  import opened ProtocolSegments

  // ---- A post without a hash ----

  /** One delivery of a post that has no hash; the second run passes the gate before the first marks. */
  ghost predicate Raced(s: State, t: State, p: PostId, a: JobId, b: JobId) {
    a != b && a in t.jobs && b in t.jobs && p in t.posts && t.lock.None? &&
    t.jobs[a] == Job(p, s.now, None, 0, AtMark(1)) && t.jobs[b].post == p && t.jobs[b].hash.None? &&
    t.jobs[b].phase.AwaitLock? && t.jobs[b].start == t.now && t.posts[p].messageId.None? &&
    SendsOf(t.sends, p) == SendsOf(s.sends, p) + [Send(a, p, None, 0, 1, t.now)]
  }

  function Delivering(c: Config, s: State, p: PostId): seq<Action> {
    Entering(s, p) + Attempting(c, s.nextJob) + [OfRun(s.nextJob, AttemptOk(1))]
  }

  function Delivered(c: Config, s: State, p: PostId): State
    requires GatePasses(s, p)
  {
    SendOk(InAttempt(c, Entered(s, p), s.nextJob), s.nextJob, 1)
  }

  lemma UnhashedDelivery(c: Config, s: State, p: PostId)
    requires c.spacing <= c.timeout && p in s.queue && GatePasses(s, p) && s.posts[p].hash.None? && s.lock.None?
    ensures Run(c, s, Delivering(c, s, p)) == Delivered(c, s, p)
  {
    var a := s.nextJob;
    Enters(c, s, p);
    Attempts(c, Entered(s, p), a);
    SendOkStep(c, InAttempt(c, Entered(s, p), a), a, 1);
    RunConcat(c, s, Entering(s, p), Attempting(c, a));
    RunThen(c, s, Entering(s, p) + Attempting(c, a), OfRun(a, AttemptOk(1)));
  }

  lemma UnhashedRace(c: Config, s: State, p: PostId) returns (run: seq<Action>)
    requires c.spacing <= c.timeout && p in s.queue && GatePasses(s, p) && s.posts[p].hash.None? && s.lock.None?
    ensures Raced(s, Run(c, s, run), p, s.nextJob, s.nextJob + 1)
    ensures Run(c, s, run).now == s.now + c.spacing
  {
    UnhashedDelivery(c, s, p);
    var t := Delivered(c, s, p);
    assert t.sends[..|s.sends|] == s.sends;
    ApproveStep(c, t, p, false);
    var u := ApproveTx(t, p, false);
    Enters(c, u, p);
    RunThen(c, s, Delivering(c, s, p), World(Approve(p, false)));
    run := Delivering(c, s, p) + [World(Approve(p, false))] + Entering(u, p);
    RunConcat(c, s, Delivering(c, s, p) + [World(Approve(p, false))], Entering(u, p));
  }

  /**
   Why editors must wait for normalize: any unhashed post that the gate lets through
   can be delivered twice and have its recorded id replaced.
   */
  lemma UnhashedSentTwice(c: Config, s: State, p: PostId) returns (run: seq<Action>, more: seq<Action>)
    requires c.spacing <= c.timeout && p in s.queue && GatePasses(s, p) && s.posts[p].hash.None? && s.lock.None?
    ensures var t := Run(c, s, run); p in t.posts && t.posts[p].messageId == Some(1)
    ensures var t := Run(c, Run(c, s, run), more);
            p in t.posts && t.posts[p].messageId == Some(2) && |SendsOf(t.sends, p)| == |SendsOf(s.sends, p)| + 2
  {
    var a, b := s.nextJob, s.nextJob + 1;
    var race := UnhashedRace(c, s, p);
    var t := Run(c, s, race);
    RunThen(c, s, race, OfRun(a, Advance));
    run := race + [OfRun(a, Advance)];
    AdvanceStep(c, t, a);
    var u := AdvanceJob(t, a);
    Attempts(c, u, b);
    var v := InAttempt(c, u, b);
    SendOkStep(c, v, b, 2);
    var w := SendOk(v, b, 2);
    assert w.sends[..|t.sends|] == t.sends;
    AdvanceStep(c, w, b);
    RunThen(c, u, Attempting(c, b), OfRun(b, AttemptOk(2)));
    RunThen(c, u, Attempting(c, b) + [OfRun(b, AttemptOk(2))], OfRun(b, Advance));
    more := Attempting(c, b) + [OfRun(b, AttemptOk(2))] + [OfRun(b, Advance)];
  }

  // ---- A content that changes after normalize has read it ----

  /** Normalize stores the new hash, and an editor approves. */
  function Renormalizing(p: PostId, content: Hash): seq<Action> {
    [World(NormalizeLoad(p))] + [World(NormalizeCheck(p, content))] +
    [World(NormalizeCommit(p, content, false, false))] + [World(Approve(p, false))]
  }

  function Renormalized(s: State, p: PostId, content: Hash): State
    requires p in s.posts
  {
    s.(posts := s.posts[p := s.posts[p].(hash := Some(content), state := Approved, scheduledFor := None)],
       owed := s.owed + multiset{p})
  }

  lemma Renormalizes(c: Config, s: State, p: PostId)
    requires p in s.posts && s.posts[p].state.Publishing? && s.posts[p].content !in s.rows
    ensures var g := s.posts[p].content;
            DisciplinedRun(c, s, Renormalizing(p, g)) && Run(c, s, Renormalizing(p, g)) == Renormalized(s, p, g)
  {
    var g := s.posts[p].content;
    var s1 := s.(loaded := s.loaded + multiset{(p, g, None)});
    var s2 := s.(loaded := s.loaded + multiset{(p, g, Some(false))});
    var s3 := s.(posts := s.posts[p := s.posts[p].(hash := Some(g))]);
    hide Step;
    hide Run;
    hide DisciplinedRun;
    var load, check, commit := [World(NormalizeLoad(p))], [World(NormalizeCheck(p, g))],
      [World(NormalizeCommit(p, g, false, false))];
    RunOne(c, s, load[0]);
    RenormalizeLoad(c, s, p);
    RunNext(c, s, load, check[0]);
    RenormalizeCheck(c, s, p);
    RunNext(c, s, load + check, commit[0]);
    RenormalizeCommit(c, s, p);
    RunNext(c, s, load + check + commit, World(Approve(p, false)));
    ApproveStep(c, s3, p, false);
    assert s3.posts[p := s3.posts[p].(state := Approved, scheduledFor := None)] == Renormalized(s, p, g).posts;
  }

  lemma RenormalizeLoad(c: Config, s: State, p: PostId)
    requires p in s.posts && s.posts[p].state.Publishing?
    ensures Step(c, s, World(NormalizeLoad(p))) == s.(loaded := s.loaded + multiset{(p, s.posts[p].content, None)})
  {
  }

  lemma RenormalizeCheck(c: Config, s: State, p: PostId)
    requires p in s.posts && s.posts[p].content !in s.rows
    ensures var g := s.posts[p].content;
            Step(c, s.(loaded := s.loaded + multiset{(p, g, None)}), World(NormalizeCheck(p, g)))
              == s.(loaded := s.loaded + multiset{(p, g, Some(false))})
  {
    var g := s.posts[p].content;
    var t := s.(loaded := s.loaded + multiset{(p, g, None)});
    assert (p, g, None) in t.loaded;
    assert t.loaded - multiset{(p, g, None)} == s.loaded;
  }

  lemma RenormalizeCommit(c: Config, s: State, p: PostId)
    requires p in s.posts
    ensures var g := s.posts[p].content;
            Step(c, s.(loaded := s.loaded + multiset{(p, g, Some(false))}), World(NormalizeCommit(p, g, false, false)))
              == s.(posts := s.posts[p := s.posts[p].(hash := Some(g))])
  {
    var g := s.posts[p].content;
    var t := s.(loaded := s.loaded + multiset{(p, g, Some(false))});
    assert (p, g, Some(false)) in t.loaded && t.loaded - multiset{(p, g, Some(false))} == s.loaded;
  }

  /** Run `a` has sent message 1 under hash `h` and is at its mark. */
  ghost predicate FirstSent(s: State, t: State, p: PostId, h: Hash, at: int) {
    var a := s.nextJob;
    p in s.posts && t.posts == s.posts[p := s.posts[p].(state := Publishing)] && t.rows.Keys == s.rows.Keys + {h} &&
    t.now == at && t.lock.None? && t.queue == s.queue && t.nextJob == a + 1 &&
    a in t.jobs && t.jobs[a].post == p && t.jobs[a].hash == Some(h) && t.jobs[a].phase == AtMark(1) &&
    t.jobs[a].start == s.now && |SendsOf(t.sends, p)| == |SendsOf(s.sends, p)| + 1
  }

  function SendingOnce(c: Config, s: State, p: PostId): seq<Action> {
    Retrying(c, s, p) + [OfRun(s.nextJob, AttemptOk(1))]
  }

  lemma SendsOnce(c: Config, s: State, p: PostId)
    requires c.spacing <= c.timeout && p in s.queue && GatePasses(s, p) && s.lock.None?
    requires s.posts[p].hash.Some? && s.posts[p].hash.value !in s.rows
    ensures var run := SendingOnce(c, s, p);
            DisciplinedRun(c, s, run) && FirstSent(s, Run(c, s, run), p, s.posts[p].hash.value, s.now + c.spacing)
  {
    hide Step;
    hide Run;
    hide DisciplinedRun;
    hide Retrying;
    var u, a := Retried(c, s, p), s.nextJob;
    Retries(c, s, p);
    RetriedAtSend(c, s, p);
    RunNext(c, s, Retrying(c, s, p), OfRun(a, AttemptOk(1)));
    SendOkStep(c, u, a, 1);
    assert SendOk(u, a, 1).sends[..|s.sends|] == s.sends;
  }

  /** Normalize, an editor, and a second run up to its reservation of the new hash; then the first run's mark. */
  function Overlapping(s: State, p: PostId, a: JobId): seq<Action>
    requires p in s.posts
  {
    Renormalizing(p, s.posts[p].content) + Entering(Renormalized(s, p, s.posts[p].content), p) + Reserving(s.nextJob) +
    [OfRun(a, Advance)]
  }

  /** Run `a`'s id is stored while run `b`, with the new hash, waits for the lock. */
  ghost predicate Overlapped(s: State, t: State, p: PostId, b: JobId) {
    p in t.posts && t.posts[p].messageId == Some(1) && t.now == s.now && t.lock.None? && t.sends == s.sends &&
    b in t.jobs && t.jobs[b].post == p && t.jobs[b].hash.Some? && t.jobs[b].phase.AwaitLock? && t.jobs[b].start == s.now
  }

  lemma Overlaps(c: Config, s: State, p: PostId, a: JobId)
    requires Live(c, s, a) && a < s.nextJob && s.jobs[a].post == p && s.jobs[a].phase == AtMark(1)
    requires p in s.posts && p in s.queue && s.posts[p].state.Publishing? && s.posts[p].messageId.None? && s.lock.None?
    requires s.posts[p].content !in s.rows && s.jobs[a].hash.Some? && s.jobs[a].hash.value in s.rows
    ensures var run := Overlapping(s, p, a);
            DisciplinedRun(c, s, run) && Overlapped(s, Run(c, s, run), p, s.nextJob)
  {
    hide Step;
    hide Run;
    hide DisciplinedRun;
    var g, b := s.posts[p].content, s.nextJob;
    var u := Renormalized(s, p, g);
    Renormalizes(c, s, p);
    Enters(c, u, p);
    DisciplinedConcat(c, s, Renormalizing(p, g), Entering(u, p));
    var v := Entered(u, p);
    Reserves(c, v, b);
    DisciplinedConcat(c, s, Renormalizing(p, g) + Entering(u, p), Reserving(b));
    var w := HasReserved(v, b);
    assert a in w.jobs && w.jobs[a] == s.jobs[a];
    RunNext(c, s, Renormalizing(p, g) + Entering(u, p) + Reserving(b), OfRun(a, Advance));
    MarkStep(c, w, a);
  }

  function SendingAgain(c: Config, b: JobId): seq<Action> {
    Attempting(c, b) + [OfRun(b, AttemptOk(2))] + [OfRun(b, Advance)]
  }

  lemma SendsAgain(c: Config, s: State, p: PostId, b: JobId)
    requires c.spacing <= c.timeout && b in s.jobs && s.jobs[b].post == p && s.jobs[b].phase.AwaitLock?
    requires s.jobs[b].start == s.now && p in s.posts && s.lock.None?
    ensures var t := Run(c, s, SendingAgain(c, b));
            DisciplinedRun(c, s, SendingAgain(c, b)) && p in t.posts && t.posts[p].messageId == Some(2) &&
            |SendsOf(t.sends, p)| == |SendsOf(s.sends, p)| + 1
  {
    hide Step;
    hide Run;
    hide DisciplinedRun;
    Attempts(c, s, b);
    var u := InAttempt(c, s, b);
    RunNext(c, s, Attempting(c, b), OfRun(b, AttemptOk(2)));
    SendOkStep(c, u, b, 2);
    var v := SendOk(u, b, 2);
    assert v.sends[..|s.sends|] == s.sends;
    RunNext(c, s, Attempting(c, b) + [OfRun(b, AttemptOk(2))], OfRun(b, Advance));
    MarkStep(c, v, b);
  }

  /**
   Why content must settle before normalize reads it: a normalized post whose content
   changes once, in runs that obey every other rule, is sent twice and has its recorded
   id replaced.
   */
  lemma ChangedContentSentTwice(c: Config, s: State, p: PostId, content: Hash)
    returns (first: seq<Action>, second: seq<Action>, third: seq<Action>)
    requires c.spacing <= c.timeout && p in s.queue && GatePasses(s, p) && s.lock.None?
    requires s.posts[p].hash.Some? && s.posts[p].hash.value !in s.rows
    requires content != s.posts[p].hash.value && content !in s.rows
    ensures var t := Step(c, Run(c, s, first), World(StoreMedia(p, content)));
            DisciplinedRun(c, s, first) && DisciplinedRun(c, t, second) && DisciplinedRun(c, Run(c, t, second), third)
    ensures var u := Run(c, Step(c, Run(c, s, first), World(StoreMedia(p, content))), second);
            p in u.posts && u.posts[p].messageId == Some(1)
    ensures var u := Run(c, Step(c, Run(c, s, first), World(StoreMedia(p, content))), second);
            var v := Run(c, u, third);
            p in v.posts && v.posts[p].messageId == Some(2) && |SendsOf(v.sends, p)| == |SendsOf(s.sends, p)| + 2
  {
    hide Step;
    hide Run;
    hide DisciplinedRun;
    hide SendingOnce;
    hide Overlapping;
    hide SendingAgain;
    hide SendsOf;
    first := SendingOnce(c, s, p);
    SendsOnce(c, s, p);
    var t := Changed(c, Run(c, s, first), p, content);
    second := Overlapping(t, p, s.nextJob);
    Overlaps(c, t, p, s.nextJob);
    third := SendingAgain(c, s.nextJob + 1);
    SendsAgain(c, Run(c, t, second), p, s.nextJob + 1);
  }

  lemma Changed(c: Config, s: State, p: PostId, content: Hash) returns (t: State)
    requires p in s.posts
    ensures t == Step(c, s, World(StoreMedia(p, content))) == s.(posts := s.posts[p := s.posts[p].(content := content)])
  {
    t := Step(c, s, World(StoreMedia(p, content)));
  }

  // ---- An exception at the gate ----

  /**
   Why a raise while loading reopens a rejection: the failure handler overwrites the
   state, and the next run for the rejected post is sent.
   */
  lemma LoadFailureUnrejects(c: Config, s: State, j: JobId) returns (run: seq<Action>)
    requires c.spacing <= c.timeout && Live(c, s, j) && s.jobs[j].phase.AtGate? && s.lock.None?
    requires var p := s.jobs[j].post;
             p in s.posts && p in s.queue && s.posts[p].state.Rejected? && s.posts[p].messageId.None? &&
             s.posts[p].hash.Some? && s.posts[p].hash.value !in s.rows
    ensures |SendsOf(Run(c, s, run).sends, s.jobs[j].post)| == |SendsOf(s.sends, s.jobs[j].post)| + 1
  {
    var p := s.jobs[j].post;
    RunThen(c, s, [], OfRun(j, Raise(false)));
    var t := GoTo(s, j, AtFailure);
    assert Step(c, s, OfRun(j, Raise(false))) == t;
    RunThen(c, s, [] + [OfRun(j, Raise(false))], OfRun(j, Advance));
    AdvanceStep(c, t, j);
    var u := AdvanceJob(t, j);
    assert u == FailureTx(t, p).(jobs := t.jobs - {j});
    Retries(c, u, p);
    var first := [] + [OfRun(j, Raise(false))] + [OfRun(j, Advance)];
    RunConcat(c, s, first, Retrying(c, u, p));
    var v := Retried(c, u, p);
    SendOkStep(c, v, u.nextJob, 1);
    assert SendOk(v, u.nextJob, 1).sends[..|s.sends|] == s.sends;
    RunThen(c, s, first + Retrying(c, u, p), OfRun(u.nextJob, AttemptOk(1)));
    run := first + Retrying(c, u, p) + [OfRun(u.nextJob, AttemptOk(1))];
  }
}
