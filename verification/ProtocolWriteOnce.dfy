/**
 `published_message_id` is write-once and truthful even though the gate reads before it
 writes and racing runs may both pass it, provided editors act on normalized posts and
 a post's content is settled before it is normalized.
 */
module ProtocolWriteOnce {
  import opened Options
  import opened Protocol
  import opened ProtocolInvariants
  import opened ProtocolFrames
  import opened ProtocolTheorems

  /** Two runs that overlap fit in one window, or every run times out before it may send. */
  predicate IdsSafe(c: Config) {
    2 * c.timeout <= c.lookback + c.spacing || c.timeout < c.spacing
  }

  // ---- The discipline, checkable at each call ----

  ghost predicate Disciplined(s: State, a: Action) {
    a.World? ==>
      match a.event
      case Approve(p, _) => p in s.posts ==> s.posts[p].hash.Some?
      case Schedule(p, _) => p in s.posts ==> s.posts[p].hash.Some?
      case StoreMedia(p, _) => p in s.posts ==> s.posts[p].hash.None? && forall x :: x in s.loaded ==> x.0 != p
      case _ => true
  }

  ghost predicate DisciplinedRun(c: Config, s: State, run: seq<Action>)
    decreases |run|
  {
    run == [] || (Disciplined(s, run[0]) && DisciplinedRun(c, Step(c, s, run[0]), run[1..]))
  }

  /** Stored hashes never change: they equal the settled content, and so do those normalize will write. */
  ghost predicate HashesSettled(s: State) {
    && (forall p :: p in s.posts && s.posts[p].hash.Some? ==> s.posts[p].hash.value == s.posts[p].content)
    && (forall x :: x in s.loaded ==> x.0 < s.nextPost && (x.0 in s.posts ==> x.1 == s.posts[x.0].content))
  }

  /** Only normalized posts are scheduled, owed, queued or run. */
  ghost predicate AskedHashed(s: State) {
    && (forall p :: p in s.posts && s.posts[p].state.Scheduled? ==> s.posts[p].hash.Some?)
    && (forall p :: p in s.owed ==> p < s.nextPost && (p in s.posts ==> s.posts[p].hash.Some?))
    && (forall p :: p in s.queue ==> p < s.nextPost && (p in s.posts ==> s.posts[p].hash.Some?))
    && (forall j :: j in s.jobs ==>
          s.jobs[j].post < s.nextPost && (s.jobs[j].post in s.posts ==> s.posts[s.jobs[j].post].hash.Some?))
  }

  ghost predicate RunsHashed(s: State) {
    forall j :: j in s.jobs && Active(s.jobs[j].phase) && s.jobs[j].post in s.posts ==>
      s.jobs[j].hash == s.posts[s.jobs[j].post].hash
  }

  ghost predicate Settled(s: State) {
    HashesSettled(s) && AskedHashed(s) && RunsHashed(s)
  }

  /** Send `k` is the one recorded on `p`; every run past the gate for `p` began before its mark. */
  ghost predicate RecordedSend(c: Config, s: State, p: PostId, k: nat)
    requires p in s.posts && s.posts[p].messageId.Some?
  {
    k < |s.sends| &&
    var send := s.sends[k];
    send.post == p && send.id == s.posts[p].messageId.value && send.hash == s.posts[p].hash && send.hash.Some? &&
    (send.job in s.jobs ==> Done(s.jobs[send.job].phase)) &&
    send.res < |s.history| &&
    forall j :: j in s.jobs && s.jobs[j].post == p && Active(s.jobs[j].phase) ==>
      s.jobs[j].start <= s.history[send.res].at + c.timeout
  }

  ghost predicate IdsRecorded(c: Config, s: State) {
    forall p :: p in s.posts && s.posts[p].messageId.Some? ==> exists k :: RecordedSend(c, s, p, k)
  }

  ghost predicate Guarded(c: Config, s: State) {
    Base(c, s) && Index(c, s) && Settled(s) && IdsRecorded(c, s)
  }

  // ---- Settled is preserved ----

  /** What settles a state is kept by any change of one run and its post's state and id. */
  lemma FrameSettled(s: State, t: State, j: JobId)
    requires Settled(s) && ColumnsKept(s, t) && QueuesKept(s, t) && OneRunMoved(s, t, j)
    ensures HashesSettled(t) && AskedHashed(t)
  {
  }

  lemma FrameRunsHashed(s: State, t: State, j: JobId)
    requires RunsHashed(s) && ColumnsKept(s, t) && OneRunMoved(s, t, j)
    ensures RunsHashed(t)
  {
  }

  lemma MoveSettled(c: Config, s: State, j: JobId, m: Move)
    requires Settled(s) && MoveEnabled(c, s, j, m)
    ensures Settled(MoveEffect(c, s, j, m))
  {
    hide MoveEffect;
    MoveFrame(c, s, j, m);
    FrameSettled(s, MoveEffect(c, s, j, m), j);
    FrameRunsHashed(s, MoveEffect(c, s, j, m), j);
    hide HashesSettled;
    hide AskedHashed;
    hide RunsHashed;
  }

  ghost predicate PostsKnown(s: State) {
    forall p :: p in s.posts ==> p < s.nextPost
  }

  lemma NormalizeSettled(s: State, t: State, p: PostId, content: Hash, duplicate: bool, auto: bool)
    requires PostsKnown(s) && Settled(s) && (p, content, Some(duplicate)) in s.loaded
    requires Normalized(s, t, p, content, duplicate, auto)
    ensures Settled(t)
  {
  }

  lemma EventStored(c: Config, s: State, e: Event)
    requires PostsKnown(s) && HashesSettled(s) && EventEnabled(c, s, e)
    requires Disciplined(s, World(e)) && !e.NormalizeCommit?
    ensures var t := EventEffect(c, s, e);
            forall p :: p in t.posts && t.posts[p].hash.Some? ==> t.posts[p].hash.value == t.posts[p].content
  {
  }

  lemma EventLoaded(c: Config, s: State, e: Event)
    requires PostsKnown(s) && HashesSettled(s) && EventEnabled(c, s, e)
    requires Disciplined(s, World(e)) && !e.NormalizeCommit?
    ensures var t := EventEffect(c, s, e);
            forall x :: x in t.loaded ==> x.0 < t.nextPost && (x.0 in t.posts ==> x.1 == t.posts[x.0].content)
  {
    if !e.NormalizeLoad? && !e.NormalizeCheck? {
      if Decides(e) { DecisionLoaded(c, s, e); } else { EventPostsSame(c, s, e); QuietLoaded(c, s, e); }
      hide EventEffect;
    }
    hide IsDuplicate;
  }

  lemma DecisionLoaded(c: Config, s: State, e: Event)
    requires PostsKnown(s) && HashesSettled(s) && EventEnabled(c, s, e) && Disciplined(s, World(e)) && Decides(e)
    ensures var t := EventEffect(c, s, e);
            forall x :: x in t.loaded ==> x.0 < t.nextPost && (x.0 in t.posts ==> x.1 == t.posts[x.0].content)
  {
  }

  lemma QuietLoaded(c: Config, s: State, e: Event)
    requires EventEnabled(c, s, e) && !Decides(e) && !e.NormalizeLoad? && !e.NormalizeCheck? && !e.NormalizeCommit?
    ensures var t := EventEffect(c, s, e); t.loaded == s.loaded && t.nextPost == s.nextPost
  {
  }

  lemma EventHashes(c: Config, s: State, e: Event)
    requires PostsKnown(s) && HashesSettled(s) && EventEnabled(c, s, e)
    requires Disciplined(s, World(e)) && !e.NormalizeCommit?
    ensures HashesSettled(EventEffect(c, s, e))
  {
    EventStored(c, s, e);
    EventLoaded(c, s, e);
    hide EventEffect;
  }

  lemma DecisionQueued(c: Config, s: State, e: Event)
    requires PostsKnown(s) && AskedHashed(s) && EventEnabled(c, s, e) && Disciplined(s, World(e)) && Decides(e)
    ensures var t := EventEffect(c, s, e);
            forall p :: p in t.queue ==> p < t.nextPost && (p in t.posts ==> t.posts[p].hash.Some?)
  {
  }

  lemma DecisionRuns(c: Config, s: State, e: Event)
    requires PostsKnown(s) && AskedHashed(s) && EventEnabled(c, s, e) && Disciplined(s, World(e)) && Decides(e)
    ensures var t := EventEffect(c, s, e);
            forall j :: j in t.jobs ==>
              t.jobs[j].post < t.nextPost && (t.jobs[j].post in t.posts ==> t.posts[t.jobs[j].post].hash.Some?)
  {
  }

  lemma DecisionOwed(c: Config, s: State, e: Event)
    requires PostsKnown(s) && AskedHashed(s) && EventEnabled(c, s, e) && Disciplined(s, World(e)) && Decides(e)
    ensures var t := EventEffect(c, s, e);
            (forall p :: p in t.posts && t.posts[p].state.Scheduled? ==> t.posts[p].hash.Some?) &&
            (forall p :: p in t.owed ==> p < t.nextPost && (p in t.posts ==> t.posts[p].hash.Some?))
  {
  }

  /** Everything but a decision, a normalize commit and the queue's own moves leaves what is asked for alone. */
  lemma QuietAsked(c: Config, s: State, e: Event)
    requires EventEnabled(c, s, e) && !Decides(e) && !e.NormalizeCommit? && !e.Start? && !e.Enqueue? && !e.Reconcile?
    ensures var t := EventEffect(c, s, e);
            t.posts == s.posts && t.nextPost == s.nextPost && t.owed == s.owed && t.queue == s.queue && t.jobs == s.jobs
  {
    hide IsDuplicate;
  }

  lemma OverdueAsked(s: State, batch: seq<PostId>)
    requires AskedHashed(s) && PostsKnown(s) && OverdueBatch(s, batch)
    ensures forall p :: p in batch ==> p < s.nextPost && p in s.posts && s.posts[p].hash.Some?
  {
    forall p | p in batch
      ensures Overdue(s, p)
    {
      var i :| 0 <= i < |batch| && batch[i] == p;
    }
  }

  lemma QueueAsked(c: Config, s: State, e: Event)
    requires AskedHashed(s) && EventEnabled(c, s, e) && (e.Enqueue? || e.Reconcile? || e.Start?) && PostsKnown(s)
    ensures AskedHashed(EventEffect(c, s, e))
  {
    if e.Reconcile? { OverdueAsked(s, e.batch); }
    hide OverdueBatch;
    hide Overdue;
  }

  lemma EventAsked(c: Config, s: State, e: Event)
    requires PostsKnown(s) && AskedHashed(s) && EventEnabled(c, s, e) && !Decides(e) && !e.NormalizeCommit?
    ensures AskedHashed(EventEffect(c, s, e))
  {
    hide EventEffect;
    if e.Enqueue? || e.Reconcile? || e.Start? {
      QueueAsked(c, s, e);
    } else {
      QuietAsked(c, s, e);
    }
  }

  lemma EventRuns(c: Config, s: State, e: Event)
    requires PostsKnown(s) && AskedHashed(s) && RunsHashed(s) && EventEnabled(c, s, e) && !e.NormalizeCommit?
    ensures RunsHashed(EventEffect(c, s, e))
  {
  }

  lemma EventSettled(c: Config, s: State, e: Event)
    requires PostsKnown(s) && Settled(s) && EventEnabled(c, s, e) && Disciplined(s, World(e))
    ensures Settled(EventEffect(c, s, e))
  {
    if e.NormalizeCommit? {
      NormalizeShape(s, e.post, e.content, e.duplicate, e.auto);
      NormalizeSettled(s, EventEffect(c, s, e), e.post, e.content, e.duplicate, e.auto);
    } else {
      EventHashes(c, s, e);
      if Decides(e) {
        DecisionQueued(c, s, e);
        DecisionRuns(c, s, e);
        DecisionOwed(c, s, e);
      } else {
        EventAsked(c, s, e);
      }
      EventRuns(c, s, e);
    }
  }

  lemma SettledStep(c: Config, s: State, a: Action)
    requires Base(c, s) && Settled(s) && Disciplined(s, a)
    ensures Settled(Step(c, s, a))
  {
    if Enabled(c, s, a) {
      match a
      case World(e) => EventSettled(c, s, e);
      case OfRun(j, m) => MoveSettled(c, s, j, m);
    }
    hide EventEffect;
    hide MoveEffect;
    hide Settled;
  }

  lemma {:induction false} SettledRun(c: Config, s: State, run: seq<Action>)
    requires Base(c, s) && Settled(s) && DisciplinedRun(c, s, run)
    ensures Base(c, Run(c, s, run)) && Settled(Run(c, s, run))
    decreases |run|
  {
    if run != [] {
      BaseStep(c, s, run[0]);
      SettledStep(c, s, run[0]);
      SettledRun(c, Step(c, s, run[0]), run[1..]);
    }
  }

  // ---- Recorded ids stay recorded ----

  /** Of two runs that reserved one hash, an overlapping second is past its timeout before it may send. */
  lemma OverlapTooShort(c: Config, history: seq<Reservation>, a: nat, b: nat, start: int, now: int)
    requires IdsSafe(c) && ReservationsApart(c, history) && a < |history| && b < |history| && a != b
    requires history[a].hash == history[b].hash && !history[a].released && !history[b].released
    requires history[a].at <= now && start <= history[a].at + c.timeout
    requires start <= history[b].at && history[b].at + c.spacing <= now
    ensures start + c.timeout < now
  {
  }

  /** While a post's id is recorded, no live run for it can send or mark. */
  lemma RecordedBlocks(c: Config, s: State, j: JobId, p: PostId, k: nat)
    requires IdsSafe(c) && Base(c, s) && Index(c, s) && RunsHashed(s) && Live(c, s, j) && s.jobs[j].post == p
    requires p in s.posts && s.posts[p].messageId.Some? && RecordedSend(c, s, p, k)
    ensures !s.jobs[j].phase.Sending? && !s.jobs[j].phase.AtMark?
  {
    var job := s.jobs[j];
    if job.phase.Sending? || job.phase.AtMark? {
      assert Holds(job) && Reserved(c, s, j, job);
      OverlapTooShort(c, s.history, s.sends[k].res, job.res, job.start, s.now);
    }
  }

  lemma EventHashKept(c: Config, s: State, e: Event, p: PostId)
    requires PostsKnown(s) && HashesSettled(s) && EventEnabled(c, s, e) && Disciplined(s, World(e))
    requires p in s.posts && s.posts[p].hash.Some? && p in EventEffect(c, s, e).posts
    ensures EventEffect(c, s, e).posts[p].hash == s.posts[p].hash
  {
    if e.NormalizeCommit? {
      NormalizeShape(s, e.post, e.content, e.duplicate, e.auto);
      hide NormalizeTx;
    } else {
      hide EventEffect;
      if Decides(e) { DecisionHashKept(c, s, e, p); } else { EventPostsSame(c, s, e); }
    }
  }

  lemma DecisionHashKept(c: Config, s: State, e: Event, p: PostId)
    requires PostsKnown(s) && EventEnabled(c, s, e) && Decides(e) && p in s.posts && p in EventEffect(c, s, e).posts
    ensures EventEffect(c, s, e).posts[p].hash == s.posts[p].hash
  {
  }

  lemma EventPostsSame(c: Config, s: State, e: Event)
    requires EventEnabled(c, s, e) && !Decides(e) && !e.NormalizeCommit?
    ensures EventEffect(c, s, e).posts == s.posts
  {
    hide IsDuplicate;
  }

  lemma RecordedKept(c: Config, s: State, t: State, p: PostId, k: nat)
    requires p in s.posts && s.posts[p].messageId.Some? && RecordedSend(c, s, p, k)
    requires p in t.posts && t.posts[p].messageId == s.posts[p].messageId && t.posts[p].hash == s.posts[p].hash
    requires s.sends <= t.sends && HistoryKept(s, t)
    requires forall j :: j in t.jobs && j in s.jobs ==>
               t.jobs[j].post == s.jobs[j].post && t.jobs[j].start == s.jobs[j].start &&
               (s.jobs[j].post == p && Active(t.jobs[j].phase) ==> Active(s.jobs[j].phase)) &&
               (Done(s.jobs[j].phase) ==> Done(t.jobs[j].phase))
    requires forall j :: j in t.jobs && j !in s.jobs ==> !Active(t.jobs[j].phase) && j >= s.nextJob
    requires s.sends[k].job < s.nextJob
    ensures RecordedSend(c, t, p, k)
  {
  }

  lemma EventRecorded(c: Config, s: State, e: Event)
    requires Base(c, s) && HashesSettled(s) && IdsRecorded(c, s) && EventEnabled(c, s, e) && Disciplined(s, World(e))
    ensures IdsRecorded(c, EventEffect(c, s, e))
  {
    var t := EventEffect(c, s, e);
    if !e.Start? { EventFrame(c, s, e); }
    forall p | p in t.posts && t.posts[p].messageId.Some?
      ensures exists k :: RecordedSend(c, t, p, k)
    {
      var k :| RecordedSend(c, s, p, k);
      EventHashKept(c, s, e, p);
      RecordedKept(c, s, t, p, k);
    }
  }

  /** A mark records its own send, whatever the column held before. */
  lemma MarkRecorded(c: Config, s: State, t: State, j: JobId, next: Option<Job>)
    requires JobsKnown(c, s) && SendsAccounted(s) && HoldersReserved(c, s) && RunsHashed(s) && AskedHashed(s)
    requires Live(c, s, j)
    requires s.jobs[j].phase.AtMark? && s.jobs[j].post in s.posts && TransactionOf(s, t, j, true, next)
    ensures var p := s.jobs[j].post;
            p in t.posts && t.posts[p].messageId.Some? && exists k :: RecordedSend(c, t, p, k)
  {
    var job := s.jobs[j];
    var p := job.post;
    CommitFrame(s, j);
    CommitColumns(s, j);
    CommitHistory(s, j);
    hide Commit;
    var k :| 0 <= k < |s.sends| && SendOf(s.sends[k], j, job);
    assert Holds(job) && Reserved(c, s, j, job);
    forall i | i in t.jobs && t.jobs[i].post == p && Active(t.jobs[i].phase)
      ensures t.jobs[i].start <= t.history[s.sends[k].res].at + c.timeout
    {
      assert s.jobs[i].start <= s.now <= job.start + c.timeout;
    }
    assert RecordedSend(c, t, p, k);
  }

  lemma MoveRecorded(c: Config, s: State, j: JobId, m: Move)
    requires Guarded(c, s) && MoveEnabled(c, s, j, m)
    ensures IdsRecorded(c, MoveEffect(c, s, j, m))
  {
    var t := MoveEffect(c, s, j, m);
    MoveFrame(c, s, j, m);
    forall p | p in t.posts && t.posts[p].messageId.Some?
      ensures exists k :: RecordedSend(c, t, p, k)
    {
      if t.posts[p].messageId != s.posts[p].messageId {
        MarkChange(c, s, j, m, p);
      } else {
        var k :| RecordedSend(c, s, p, k);
        RecordedSurvives(c, s, t, j, p, k);
      }
    }
  }

  /** Only a committed mark of a run for `p` changes the id stored on `p`. */
  lemma MarkChange(c: Config, s: State, j: JobId, m: Move, p: PostId)
    requires Guarded(c, s) && MoveEnabled(c, s, j, m) && p in s.posts && p in MoveEffect(c, s, j, m).posts
    requires MoveEffect(c, s, j, m).posts[p].messageId != s.posts[p].messageId
    ensures s.jobs[j].phase.AtMark? && s.jobs[j].post == p && MoveEffect(c, s, j, m).posts[p].messageId.Some?
    ensures exists k :: RecordedSend(c, MoveEffect(c, s, j, m), p, k)
  {
    if !TransactionMove(m) {
      SectionFrame(c, s, j, m);
      assert false;
    }
    CommitFrame(s, j);
    var committed, next := TransactionShape(c, s, j, m);
    MarkRecorded(c, s, MoveEffect(c, s, j, m), j, next);
  }

  lemma RecordedSurvives(c: Config, s: State, t: State, j: JobId, p: PostId, k: nat)
    requires Base(c, s) && HasId(s, p) && RecordedSend(c, s, p, k)
    requires ColumnsKept(s, t) && HistoryKept(s, t) && OneRunMoved(s, t, j) && s.sends <= t.sends
    requires t.posts[p].messageId == s.posts[p].messageId
    ensures RecordedSend(c, t, p, k)
  {
    assert !GatePasses(s, p);
    RecordedKept(c, s, t, p, k);
  }

  lemma GuardedStep(c: Config, s: State, a: Action)
    requires IdsSafe(c) && Guarded(c, s) && Disciplined(s, a)
    ensures Guarded(c, Step(c, s, a))
  {
    BaseStep(c, s, a);
    IndexStep(c, s, a);
    if Enabled(c, s, a) {
      match a
      case World(e) => EventSettled(c, s, e); EventRecorded(c, s, e);
      case OfRun(j, m) => MoveSettled(c, s, j, m); MoveRecorded(c, s, j, m);
    }
  }

  ghost predicate HasId(s: State, p: PostId) {
    p in s.posts && s.posts[p].messageId.Some?
  }

  lemma RecordedId(c: Config, s: State, j: JobId, m: Move, p: PostId)
    requires IdsSafe(c) && Guarded(c, s) && MoveEnabled(c, s, j, m) && HasId(s, p) && p in MoveEffect(c, s, j, m).posts
    ensures MoveEffect(c, s, j, m).posts[p].messageId == s.posts[p].messageId
  {
    if MoveEffect(c, s, j, m).posts[p].messageId != s.posts[p].messageId {
      MarkChange(c, s, j, m, p);
      var k :| RecordedSend(c, s, p, k);
      RecordedBlocks(c, s, j, p, k);
      assert false;
    }
  }

  lemma RecordedSends(c: Config, s: State, j: JobId, m: Move, p: PostId)
    requires IdsSafe(c) && Guarded(c, s) && MoveEnabled(c, s, j, m) && HasId(s, p)
    ensures SendsOf(MoveEffect(c, s, j, m).sends, p) == SendsOf(s.sends, p)
  {
    if m.AttemptOk? {
      if s.jobs[j].post == p {
        var k :| RecordedSend(c, s, p, k);
        RecordedBlocks(c, s, j, p, k);
      }
      assert SendOk(s, j, m.id).sends[..|s.sends|] == s.sends;
    } else {
      MoveFrame(c, s, j, m);
      hide MoveEffect;
    }
  }

  /** One disciplined step neither changes a recorded id nor sends that post again. */
  lemma RecordedStep(c: Config, s: State, a: Action, p: PostId)
    requires IdsSafe(c) && Guarded(c, s) && Disciplined(s, a)
    requires p in s.posts && s.posts[p].messageId.Some?
    ensures var t := Step(c, s, a);
            (p in t.posts ==> t.posts[p].messageId == s.posts[p].messageId) &&
            SendsOf(t.sends, p) == SendsOf(s.sends, p)
  {
    if Enabled(c, s, a) {
      match a
      case World(e) => EventKeepsIds(c, s, e);
      case OfRun(j, m) =>
        if p in MoveEffect(c, s, j, m).posts { RecordedId(c, s, j, m, p); }
        RecordedSends(c, s, j, m, p);
    }
    hide Base;
    hide Index;
    hide Settled;
    hide IdsRecorded;
    hide EventEffect;
    hide MoveEffect;
    hide SendsOf;
  }

  lemma EventKeepsIds(c: Config, s: State, e: Event)
    requires EventEnabled(c, s, e) && PostsKnown(s)
    ensures var t := EventEffect(c, s, e);
            t.sends == s.sends && t.history == s.history && s.nextJob <= t.nextJob &&
            (forall p :: p in s.posts && p in t.posts ==> t.posts[p].messageId == s.posts[p].messageId) &&
            (forall j :: j in s.jobs ==> j in t.jobs && (j < s.nextJob ==> t.jobs[j] == s.jobs[j])) &&
            (forall j :: j in t.jobs && j !in s.jobs ==> j == s.nextJob && t.jobs[j].phase.AtGate?)
  {
    if !e.Start? {
      EventFrame(c, s, e);
      hide EventEffect;
    }
  }

  lemma {:induction false} GuardedRun(c: Config, s: State, run: seq<Action>)
    requires IdsSafe(c) && Guarded(c, s) && DisciplinedRun(c, s, run)
    ensures Guarded(c, Run(c, s, run))
    decreases |run|
  {
    if run != [] {
      GuardedStep(c, s, run[0]);
      GuardedRun(c, Step(c, s, run[0]), run[1..]);
    }
  }

  // ---- After the post is deleted ----

  /** `RecordedSend` without the post: send `k` is `p`'s, and every run past the gate for `p` overlaps it. */
  ghost predicate SentOnce(c: Config, s: State, p: PostId, k: nat) {
    k < |s.sends| &&
    var send := s.sends[k];
    send.post == p && send.hash.Some? && send.job < s.nextJob &&
    (send.job in s.jobs ==> Done(s.jobs[send.job].phase)) &&
    send.res < |s.history| &&
    forall j :: j in s.jobs && s.jobs[j].post == p && Active(s.jobs[j].phase) ==>
      s.jobs[j].hash == send.hash && s.jobs[j].start <= s.history[send.res].at + c.timeout
  }

  lemma RecordedSentOnce(c: Config, s: State, p: PostId) returns (k: nat)
    requires Guarded(c, s) && HasId(s, p)
    ensures SentOnce(c, s, p, k)
  {
    k :| RecordedSend(c, s, p, k);
  }

  lemma SentOnceBlocks(c: Config, s: State, j: JobId, p: PostId, k: nat)
    requires IdsSafe(c) && Base(c, s) && Index(c, s) && Live(c, s, j) && s.jobs[j].post == p && SentOnce(c, s, p, k)
    ensures !s.jobs[j].phase.Sending?
  {
    var job := s.jobs[j];
    if job.phase.Sending? {
      assert Holds(job) && Reserved(c, s, j, job);
      OverlapTooShort(c, s.history, s.sends[k].res, job.res, job.start, s.now);
    }
  }

  /** A deleted post's runs can only stop. */
  lemma GoneMove(c: Config, s: State, j: JobId, m: Move, p: PostId, k: nat)
    requires IdsSafe(c) && Base(c, s) && Index(c, s) && MoveEnabled(c, s, j, m) && p !in s.posts && SentOnce(c, s, p, k)
    ensures SentOnce(c, MoveEffect(c, s, j, m), p, k)
    ensures SendsOf(MoveEffect(c, s, j, m).sends, p) == SendsOf(s.sends, p)
  {
    MoveFrame(c, s, j, m);
    SentOnceKept(c, s, MoveEffect(c, s, j, m), j, p, k);
    if m.AttemptOk? {
      if s.jobs[j].post == p { SentOnceBlocks(c, s, j, p, k); }
      assert SendOk(s, j, m.id).sends[..|s.sends|] == s.sends;
      hide Base;
      hide Index;
      hide SentOnce;
    } else {
      hide MoveEffect;
      hide SentOnce;
    }
  }

  lemma SentOnceKept(c: Config, s: State, t: State, j: JobId, p: PostId, k: nat)
    requires p !in s.posts && SentOnce(c, s, p, k)
    requires OneRunMoved(s, t, j) && HistoryKept(s, t) && s.sends <= t.sends
    ensures SentOnce(c, t, p, k)
  {
    assert !GatePasses(s, p);
  }

  lemma GoneStep(c: Config, s: State, a: Action, p: PostId, k: nat)
    requires IdsSafe(c) && Base(c, s) && Index(c, s) && p !in s.posts && p < s.nextPost && SentOnce(c, s, p, k)
    ensures SentOnce(c, Step(c, s, a), p, k) && SendsOf(Step(c, s, a).sends, p) == SendsOf(s.sends, p)
  {
    if Enabled(c, s, a) {
      match a
      case World(e) =>
        EventKeepsIds(c, s, e);
        KnownJobs(c, s);
      case OfRun(j, m) => GoneMove(c, s, j, m, p, k);
    }
    hide EventEffect;
    hide MoveEffect;
    hide Index;
    hide Section;
    hide SendsAccounted;
  }

  lemma KnownJobs(c: Config, s: State)
    requires Base(c, s)
    ensures forall j :: j in s.jobs ==> j < s.nextJob
  {
  }

  lemma {:induction false} GoneRun(c: Config, s: State, run: seq<Action>, p: PostId, k: nat)
    requires IdsSafe(c) && Base(c, s) && Index(c, s) && p !in s.posts && p < s.nextPost && SentOnce(c, s, p, k)
    ensures p !in Run(c, s, run).posts && SendsOf(Run(c, s, run).sends, p) == SendsOf(s.sends, p)
    decreases |run|
  {
    if run != [] {
      BaseStep(c, s, run[0]);
      IndexStep(c, s, run[0]);
      StepPosts(c, s, run[0], p);
      GoneStep(c, s, run[0], p, k);
      GoneRun(c, Step(c, s, run[0]), run[1..], p, k);
    }
  }

  lemma {:induction false} RecordedRun(c: Config, s: State, run: seq<Action>, p: PostId)
    requires IdsSafe(c) && Guarded(c, s) && DisciplinedRun(c, s, run) && HasId(s, p)
    ensures var t := Run(c, s, run);
            (p in t.posts ==> t.posts[p].messageId == s.posts[p].messageId) &&
            SendsOf(t.sends, p) == SendsOf(s.sends, p)
    decreases |run|
  {
    if run != [] {
      var t := Step(c, s, run[0]);
      GuardedStep(c, s, run[0]);
      RecordedStep(c, s, run[0], p);
      if p in t.posts {
        RecordedRun(c, t, run[1..], p);
      } else {
        DeletedStep(c, s, run[0], p);
        var k := DeletedSentOnce(c, s, run[0], p);
        GoneRun(c, t, run[1..], p, k);
      }
    }
  }

  lemma DeletedStep(c: Config, s: State, a: Action, p: PostId)
    requires PostsKnown(s) && p in s.posts
    ensures p < Step(c, s, a).nextPost
  {
    StepPosts(c, s, a, p);
  }

  /** Deleting the post leaves what was known of its send and its runs. */
  lemma DeletedSentOnce(c: Config, s: State, a: Action, p: PostId) returns (k: nat)
    requires Guarded(c, s) && HasId(s, p) && p !in Step(c, s, a).posts
    ensures SentOnce(c, Step(c, s, a), p, k)
  {
    k := RecordedSentOnce(c, s, p);
    if a.OfRun? {
      MoveFrame(c, s, a.job, a.move);
    } else {
      assert a.event == RemovePost(p) by { EventRemoves(c, s, a.event, p); }
    }
  }

  lemma EventRemoves(c: Config, s: State, e: Event, p: PostId)
    requires EventEnabled(c, s, e) && p in s.posts && p !in EventEffect(c, s, e).posts
    ensures e == RemovePost(p)
  {
    if e.NormalizeCommit? { NormalizeShape(s, e.post, e.content, e.duplicate, e.auto); }
    hide NormalizeTx;
  }

  lemma EventPosts(c: Config, s: State, e: Event, p: PostId)
    requires p < s.nextPost && EventEnabled(c, s, e)
    ensures p < EventEffect(c, s, e).nextPost && (p !in s.posts ==> p !in EventEffect(c, s, e).posts)
  {
  }

  lemma StepPosts(c: Config, s: State, a: Action, p: PostId)
    requires p < s.nextPost
    ensures p < Step(c, s, a).nextPost && (p !in s.posts ==> p !in Step(c, s, a).posts)
  {
    if Enabled(c, s, a) {
      match a
      case World(e) => EventPosts(c, s, e, p);
      case OfRun(j, m) => MoveFrame(c, s, j, m);
    }
    hide EventEffect;
    hide MoveEffect;
  }

  /** In every disciplined run a stored message id never changes and its post, deleted or not, is never sent again. */
  lemma PublishedIdWriteOnce(c: Config, run: seq<Action>, more: seq<Action>, p: PostId)
    requires IdsSafe(c) && DisciplinedRun(c, Init(), run) && DisciplinedRun(c, Run(c, Init(), run), more)
    requires HasId(Run(c, Init(), run), p)
    ensures var s := Run(c, Init(), run); var t := Run(c, s, more);
            (p in t.posts ==> t.posts[p].messageId == s.posts[p].messageId) &&
            SendsOf(t.sends, p) == SendsOf(s.sends, p)
  {
    InitHolds(c);
    GuardedRun(c, Init(), run);
    RecordedRun(c, Run(c, Init(), run), more, p);
  }
}
