/**
 What undisturbed stretches of the protocol achieve, in the units and columns of the
 source: from ingestion to the published post, from an editor's decision to the send, a
 RetryAfter waited out, and what the reconcile query brings back.
 */
module ProtocolOutcomes {
  import opened Options
  import opened Protocol
  import opened ProtocolInvariants
  import opened ProtocolFrames
  import opened ProtocolTheorems
  import opened ProtocolWriteOnce
  import opened ProtocolSegments
  import opened ProtocolAsWritten
  import opened ProtocolGate

  // ---- A RetryAfter, waited out ----

  /** Telegram asks to wait; the run sleeps one second more and tries again. */
  function Waiting(j: JobId, seconds: nat): seq<Action> {
    [OfRun(j, AttemptRetryAfter(seconds))] + [World(Tick((seconds + 1) * 1000))] + [OfRun(j, BeginAttempt)]
  }

  lemma WaitsOut(c: Config, s: State, j: JobId, seconds: nat)
    requires j in s.jobs && s.jobs[j].phase == Sending(false)
    requires s.now + (seconds + 1) * 1000 <= s.jobs[j].start + c.timeout
    ensures var t := Run(c, s, Waiting(j, seconds));
            t == s.(now := s.now + (seconds + 1) * 1000, attempts := t.attempts,
                    jobs := s.jobs[j := s.jobs[j].(phase := Sending(true))])
  {
    var u := RetryAfter(s, j, seconds);
    RunThen(c, s, [], OfRun(j, AttemptRetryAfter(seconds)));
    assert [] + [OfRun(j, AttemptRetryAfter(seconds))] == [OfRun(j, AttemptRetryAfter(seconds))];
    assert Step(c, s, OfRun(j, AttemptRetryAfter(seconds))) == u;
    RunThen(c, s, [OfRun(j, AttemptRetryAfter(seconds))], World(Tick((seconds + 1) * 1000)));
    TickStep(c, u, (seconds + 1) * 1000);
    var v := u.(now := u.now + (seconds + 1) * 1000);
    RunThen(c, s, [OfRun(j, AttemptRetryAfter(seconds))] + [World(Tick((seconds + 1) * 1000))],
            OfRun(j, BeginAttempt));
    BeginStep(c, v, j);
    assert v.jobs[j := Begin(v, j).jobs[j]] == s.jobs[j := s.jobs[j].(phase := Sending(true))];
    hide Step;
    hide Run;
  }

  /** A run told to wait, with time left, publishes by its second call, that many seconds and one later. */
  lemma FloodWaitedOut(c: Config, s: State, j: JobId, seconds: nat, id: nat)
    requires j in s.jobs && s.jobs[j].phase == Sending(false) && s.jobs[j].post in s.posts && id != 0
    requires s.jobs[j].hash.Some? && s.jobs[j].hash.value in s.rows
    requires s.now + (seconds + 1) * 1000 <= s.jobs[j].start + c.timeout
    ensures var p := s.jobs[j].post; var t := Run(c, s, Waiting(j, seconds) + Finishing(j, id));
            t.posts == s.posts[p := s.posts[p].(state := Published, messageId := Some(id))] &&
            t.rows == s.rows && t.jobs == s.jobs - {j} && t.lock.None? &&
            t.now == s.now + (seconds + 1) * 1000 &&
            t.sends == s.sends + [Send(j, p, s.jobs[j].hash, s.jobs[j].res, id, s.now + (seconds + 1) * 1000)]
  {
    WaitsOut(c, s, j, seconds);
    var u := Run(c, s, Waiting(j, seconds));
    Finishes(c, u, j, id);
    RunConcat(c, s, Waiting(j, seconds), Finishing(j, id));
    FinishingTime(c, u, j, id);
    assert u.jobs - {j} == s.jobs - {j};
    hide Run;
    hide Waiting;
    hide Finishing;
    hide DisciplinedRun;
  }

  lemma FinishingTime(c: Config, s: State, j: JobId, id: nat)
    ensures Run(c, s, Finishing(j, id)).now == s.now
  {
    var a, b := OfRun(j, AttemptOk(id)), OfRun(j, Advance);
    RunPair(c, s, a, b);
    RunThen(c, s, [a] + [b], b);
    MoveTime(c, s, j, AttemptOk(id));
    MoveTime(c, Step(c, s, a), j, Advance);
    MoveTime(c, Step(c, Step(c, s, a), b), j, Advance);
    hide Run;
    hide Step;
  }

  lemma MoveTime(c: Config, s: State, j: JobId, m: Move)
    ensures Step(c, s, OfRun(j, m)).now == s.now
  {
    if MoveEnabled(c, s, j, m) { MoveFrame(c, s, j, m); }
    hide MoveEffect;
  }

  /** A call that returns no id is not a send. */
  lemma ZeroIsNoId(c: Config, s: State, j: JobId)
    ensures Step(c, s, OfRun(j, AttemptOk(0))) == s
  {
  }

  // ---- Normalize ----

  /** A normalize run nobody disturbs. */
  function Normalizing(p: PostId, h: Hash, duplicate: bool, auto: bool): seq<Action> {
    [World(NormalizeLoad(p))] + [World(NormalizeCheck(p, h))] + [World(NormalizeCommit(p, h, duplicate, auto))]
  }

  /** What it leaves: the hash, and a rejection or, on an auto channel, one publish owed. */
  function NormalizedTo(s: State, p: PostId, h: Hash, duplicate: bool, auto: bool): State
    requires p in s.posts
  {
    var post := s.posts[p];
    s.(posts := s.posts[p := Post(if duplicate then Rejected else post.state, post.content, Some(h),
                                  post.messageId, post.scheduledFor)],
       owed := if auto && !duplicate then s.owed + multiset{p} else s.owed)
  }

  /** A post is rejected exactly when its hash has a row at most the lookback old; else it keeps its state. */
  lemma NormalizeDecides(c: Config, s: State, p: PostId, h: Hash, auto: bool)
    requires p in s.posts && s.posts[p].content == h && !s.posts[p].state.Published? && !s.posts[p].state.Rejected?
    ensures var duplicate := h in s.rows && s.now - s.rows[h].at <= c.lookback;
            Run(c, s, Normalizing(p, h, duplicate, auto)) == NormalizedTo(s, p, h, duplicate, auto)
  {
    var duplicate := h in s.rows && s.now - s.rows[h].at <= c.lookback;
    var a, b, d := World(NormalizeLoad(p)), World(NormalizeCheck(p, h)), World(NormalizeCommit(p, h, duplicate, auto));
    var t := s.(loaded := s.loaded + multiset{(p, h, None)});
    assert Step(c, s, a) == t;
    var u := s.(loaded := s.loaded + multiset{(p, h, Some(duplicate))});
    CheckFinds(c, s, p, h);
    CommitLeaves(c, s, p, h, duplicate, auto);
    RunPair(c, s, a, b);
    RunThen(c, s, [a] + [b], d);
    hide Run;
    hide Step;
  }

  lemma CheckFinds(c: Config, s: State, p: PostId, h: Hash)
    ensures var duplicate := h in s.rows && s.now - s.rows[h].at <= c.lookback;
            Step(c, s.(loaded := s.loaded + multiset{(p, h, None)}), World(NormalizeCheck(p, h)))
            == s.(loaded := s.loaded + multiset{(p, h, Some(duplicate))})
  {
    assert s.loaded + multiset{(p, h, None)} - multiset{(p, h, None)} == s.loaded;
  }

  lemma CommitLeaves(c: Config, s: State, p: PostId, h: Hash, duplicate: bool, auto: bool)
    requires p in s.posts
    ensures Step(c, s.(loaded := s.loaded + multiset{(p, h, Some(duplicate))}),
                 World(NormalizeCommit(p, h, duplicate, auto)))
         == NormalizedTo(s, p, h, duplicate, auto)
  {
    assert s.loaded + multiset{(p, h, Some(duplicate))} - multiset{(p, h, Some(duplicate))} == s.loaded;
  }

  /** A published or rejected post is not normalized again. */
  lemma NormalizeSkips(c: Config, s: State, p: PostId)
    requires p in s.posts && (s.posts[p].state.Published? || s.posts[p].state.Rejected?)
    ensures Step(c, s, World(NormalizeLoad(p))) == s
  {
  }

  // ---- From the source channel to the destination ----

  /** Ingested on an auto channel and left alone: normalized, enqueued and published. */
  function Arriving(c: Config, s: State, h: Hash, id: nat): seq<Action> {
    [World(Ingest(h))] + Normalizing(s.nextPost, h, false, true) + [World(Enqueue(s.nextPost))] +
    (Retrying(c, s, s.nextPost) + Finishing(s.nextJob, id))
  }

  function Ingested(s: State, h: Hash): State {
    s.(posts := s.posts[s.nextPost := Post(Pending, h, None, None, None)], nextPost := s.nextPost + 1)
  }

  lemma IngestStep(c: Config, s: State, h: Hash)
    ensures Run(c, s, [World(Ingest(h))]) == Ingested(s, h)
  {
    RunThen(c, s, [], World(Ingest(h)));
    assert [] + [World(Ingest(h))] == [World(Ingest(h))];
  }

  lemma EnqueueStep(c: Config, s: State, p: PostId)
    requires p in s.owed
    ensures Step(c, s, World(Enqueue(p))) == s.(owed := s.owed - multiset{p}, queue := s.queue + multiset{p})
  {
  }

  /** New content on an auto channel is published once, under Telegram's id, a spacing after it came in. */
  lemma IngestedIsPublished(c: Config, s: State, h: Hash, id: nat)
    requires c.spacing <= c.timeout && s.lock.None? && h !in s.rows && id != 0
    ensures var p := s.nextPost; var t := Run(c, s, Arriving(c, s, h, id));
            p in t.posts && t.posts[p] == Post(Published, h, Some(h), Some(id), None) &&
            h in t.rows && t.rows[h].at == s.now && t.lock.None? &&
            t.sends == s.sends + [Send(s.nextJob, p, Some(h), |s.history|, id, s.now + c.spacing)]
  {
    hide Step;
    hide Run;
    hide Normalizing;
    hide Retrying;
    hide Finishing;
    var p := s.nextPost;
    var u := Ingested(s, h);
    IngestStep(c, s, h);
    NormalizeDecides(c, u, p, h, true);
    RunConcat(c, s, [World(Ingest(h))], Normalizing(p, h, false, true));
    var v := NormalizedTo(u, p, h, false, true);
    RunThen(c, s, [World(Ingest(h))] + Normalizing(p, h, false, true), World(Enqueue(p)));
    EnqueueStep(c, v, p);
    var w := v.(owed := v.owed - multiset{p}, queue := v.queue + multiset{p});
    PublishesUndisturbed(c, w, p, id);
    assert Retrying(c, w, p) == Retrying(c, s, p) by { SameRetrying(c, w, s, p); }
    RunConcat(c, s, [World(Ingest(h))] + Normalizing(p, h, false, true) + [World(Enqueue(p))],
              Retrying(c, s, p) + Finishing(s.nextJob, id));
  }

  lemma SameRetrying(c: Config, s: State, t: State, p: PostId)
    requires s.nextJob == t.nextJob
    ensures Retrying(c, s, p) == Retrying(c, t, p)
  {
  }

  /** The same content again while its row is at most the lookback old: rejected, and no publish owed. */
  lemma RepeatIsRejected(c: Config, s: State, h: Hash, auto: bool)
    requires h in s.rows && s.now - s.rows[h].at <= c.lookback
    ensures var p := s.nextPost; var t := Run(c, s, [World(Ingest(h))] + Normalizing(p, h, true, auto));
            p in t.posts && t.posts[p] == Post(Rejected, h, Some(h), None, None) && t.owed == s.owed &&
            t.rows == s.rows && t.sends == s.sends
  {
    IngestStep(c, s, h);
    NormalizeDecides(c, Ingested(s, h), s.nextPost, h, auto);
    RunConcat(c, s, [World(Ingest(h))], Normalizing(s.nextPost, h, true, auto));
    hide Run;
    hide Normalizing;
  }

  // ---- What an editor decides ----

  function Approving(c: Config, s: State, p: PostId, inline: bool, id: nat): seq<Action> {
    [World(Approve(p, inline))] + [World(Enqueue(p))] + (Retrying(c, s, p) + Finishing(s.nextJob, id))
  }

  /** An approved post with a free hash is published; only the inline button leaves a scheduled time standing. */
  lemma ApprovedIsPublished(c: Config, s: State, p: PostId, inline: bool, id: nat)
    requires c.spacing <= c.timeout && s.lock.None? && id != 0 && p in s.posts && s.posts[p].messageId.None?
    requires s.posts[p].hash.Some? && s.posts[p].hash.value !in s.rows
    ensures var post := s.posts[p]; var t := Run(c, s, Approving(c, s, p, inline, id));
            p in t.posts && t.owed == s.owed &&
            t.posts[p] == Post(Published, post.content, post.hash, Some(id),
                               if inline then post.scheduledFor else None) &&
            t.sends == s.sends + [Send(s.nextJob, p, post.hash, |s.history|, id, s.now + c.spacing)]
  {
    hide Step;
    hide Run;
    hide Retrying;
    hide Finishing;
    var u := ApproveTx(s, p, inline);
    ApproveStep(c, s, p, inline);
    EnqueueStep(c, u, p);
    assert u.owed - multiset{p} == s.owed;
    var v := u.(owed := s.owed, queue := u.queue + multiset{p});
    RunPair(c, s, World(Approve(p, inline)), World(Enqueue(p)));
    PublishesUndisturbed(c, v, p, id);
    PublishingOwes(c, v, p, id);
    SameRetrying(c, v, s, p);
    RunConcat(c, s, [World(Approve(p, inline))] + [World(Enqueue(p))], Retrying(c, s, p) + Finishing(s.nextJob, id));
  }

  lemma PublishingOwes(c: Config, s: State, p: PostId, id: nat)
    requires c.spacing <= c.timeout && p in s.queue && GatePasses(s, p) && s.lock.None? && id != 0
    requires s.posts[p].hash.Some? && s.posts[p].hash.value !in s.rows
    ensures Run(c, s, Retrying(c, s, p) + Finishing(s.nextJob, id)).owed == s.owed
  {
    hide Step;
    hide Run;
    hide Finishing;
    Retries(c, s, p);
    var t, j := Retried(c, s, p), s.nextJob;
    RunConcat(c, s, Retrying(c, s, p), Finishing(j, id));
    FinishingOwes(c, t, j, id);
  }

  lemma FinishingOwes(c: Config, s: State, j: JobId, id: nat)
    ensures Run(c, s, Finishing(j, id)).owed == s.owed
  {
    var a, b := OfRun(j, AttemptOk(id)), OfRun(j, Advance);
    RunPair(c, s, a, b);
    RunThen(c, s, [a] + [b], b);
    MoveOwes(c, s, j, AttemptOk(id));
    MoveOwes(c, Step(c, s, a), j, Advance);
    MoveOwes(c, Step(c, Step(c, s, a), b), j, Advance);
    hide Run;
    hide Step;
  }

  lemma MoveOwes(c: Config, s: State, j: JobId, m: Move)
    ensures Step(c, s, OfRun(j, m)).owed == s.owed
  {
    if MoveEnabled(c, s, j, m) { MoveFrame(c, s, j, m); }
    hide MoveEffect;
  }

  /** A post rejected or removed while no run is past the gate is not sent until somebody reopens it. */
  lemma StoppedIsNotSent(c: Config, s: State, e: Event, run: seq<Action>, p: PostId)
    requires (e == Reject(p) || e == RemovePost(p)) && p in s.posts && p < s.nextPost
    requires forall j :: j in s.jobs && s.jobs[j].post == p ==> s.jobs[j].phase.AtGate?
    requires NeverReopens(c, Step(c, s, World(e)), run, p)
    ensures var t := Step(c, s, World(e)); p in t.posts <==> e.Reject?
    ensures SendsOf(Run(c, Step(c, s, World(e)), run).sends, p) == SendsOf(s.sends, p)
  {
    RejectionSticks(c, Step(c, s, World(e)), run, p);
  }

  // ---- The gate, and a missing channel ----

  /** The gate's read lets a run on exactly for a post without an id in one of four states. */
  lemma GateReads(c: Config, s: State, j: JobId)
    requires Live(c, s, j) && s.jobs[j].phase.AtGate?
    ensures var p := s.jobs[j].post; var t := Step(c, s, OfRun(j, Advance));
            t == s.(jobs := t.jobs) && (forall i :: i != j ==> (i in t.jobs <==> i in s.jobs)) &&
            (forall i :: i in t.jobs && i != j ==> t.jobs[i] == s.jobs[i]) &&
            (j in t.jobs <==> p in s.posts && s.posts[p].messageId.None? &&
                              s.posts[p].state in {Pending, Approved, Scheduled, PublishFailed}) &&
            (j in t.jobs ==> t.jobs[j] == s.jobs[j].(hash := s.posts[p].hash, phase := AtClaim))
  {
    AdvanceStep(c, s, j);
    hide Step;
  }

  /** A missing channel ends the run after `publishing` is written, and strands the post there. */
  lemma ChannelMissingStrands(c: Config, s: State, j: JobId, run: seq<Action>)
    requires MoveEnabled(c, s, j, NoChannel) && s.jobs[j].post < s.nextPost
    requires forall i :: i in s.jobs && s.jobs[i].post == s.jobs[j].post && Active(s.jobs[i].phase) ==> i == j
    requires NeverOpens(c, Step(c, s, OfRun(j, NoChannel)), run, s.jobs[j].post)
    ensures var p := s.jobs[j].post; var n := Step(c, s, OfRun(j, NoChannel));
            j !in n.jobs && p in n.posts && n.posts[p] == s.posts[p].(state := Publishing)
    ensures var p := s.jobs[j].post; var t := Run(c, Step(c, s, OfRun(j, NoChannel)), run);
            SendsOf(t.sends, p) == SendsOf(s.sends, p) && !GatePasses(t, p) &&
            (p in t.posts ==> t.posts[p].state.Publishing? || t.posts[p].state.Rejected?)
  {
    StrandedRun(c, Step(c, s, OfRun(j, NoChannel)), run, s.jobs[j].post);
    hide Run;
    hide NeverOpens;
  }

  // ---- The mark, and an exception after a commit ----

  /** The intended insert: a mark whose row was pruned meanwhile puts one back. */
  lemma MarkInserts(c: Config, s: State, j: JobId, h: Hash)
    requires Live(c, s, j) && s.jobs[j].phase.AtMark? && s.jobs[j].post in s.posts
    requires s.jobs[j].hash == Some(h) && h !in s.rows
    ensures var p := s.jobs[j].post; var t := Step(c, s, OfRun(j, Advance));
            t.posts == s.posts[p := s.posts[p].(state := Published, messageId := Some(s.jobs[j].phase.id))] &&
            t.rows == s.rows[h := Row(|s.history|, s.now)] &&
            t.history == s.history + [Reservation(h, j, s.now, false)]
  {
    MarkStep(c, s, j);
    hide Step;
  }

  /** The reserve commits, then raises; the failure handler; the next try. */
  function Orphaning(s: State, j: JobId, p: PostId): seq<Action> {
    [OfRun(j, Raise(true))] + [OfRun(j, Advance)] +
    (Entering(s, p) + [OfRun(s.nextJob, Advance)] + [OfRun(s.nextJob, Advance)])
  }

  function Orphaned(s: State, j: JobId, h: Hash): State
    requires j in s.jobs && s.jobs[j].post in s.posts
  {
    var p := s.jobs[j].post;
    s.(rows := s.rows[h := Row(|s.history|, s.now)], history := s.history + [Reservation(h, j, s.now, false)],
       posts := s.posts[p := s.posts[p].(state := PublishFailed)], jobs := s.jobs - {j})
  }

  lemma ReserveRaises(c: Config, s: State, j: JobId, h: Hash)
    requires Live(c, s, j) && s.jobs[j].phase.AtReserve? && s.jobs[j].hash == Some(h) && h !in s.rows
    requires s.jobs[j].post in s.posts
    ensures Run(c, s, [OfRun(j, Raise(true))] + [OfRun(j, Advance)]) == Orphaned(s, j, h)
  {
    var t := GoTo(ReserveTx(s, j, h), j, AtFailure);
    assert Step(c, s, OfRun(j, Raise(true))) == t;
    FailureStep(c, t, j);
    RunPair(c, s, OfRun(j, Raise(true)), OfRun(j, Advance));
    assert t.jobs - {j} == s.jobs - {j};
    hide Run;
  }

  /**
   An exception after the reserve's commit leaves the row of a delivery that was never made:
   the post fails and its next try rejects it as a duplicate, without any send.
   */
  lemma OrphanedReservation(c: Config, s: State, j: JobId, h: Hash)
    requires Live(c, s, j) && s.jobs[j].phase.AtReserve? && s.jobs[j].hash == Some(h) && h !in s.rows
    requires var p := s.jobs[j].post;
             p in s.posts && p in s.queue && s.posts[p].messageId.None? && s.posts[p].hash == Some(h)
    ensures var p := s.jobs[j].post; var t := Run(c, s, Orphaning(s, j, p));
            p in t.posts && t.posts[p] == s.posts[p].(state := Rejected) && t.sends == s.sends &&
            t.rows == s.rows[h := Row(|s.history|, s.now)]
  {
    var p := s.jobs[j].post;
    var t := Orphaned(s, j, h);
    ReserveRaises(c, s, j, h);
    RetryRejects(c, t, p);
    assert Entering(t, p) == Entering(s, p);
    RunConcat(c, s, [OfRun(j, Raise(true))] + [OfRun(j, Advance)],
              Entering(s, p) + [OfRun(s.nextJob, Advance)] + [OfRun(s.nextJob, Advance)]);
    hide Run;
    hide Step;
  }

  // ---- Prune ----

  /** The prune keeps exactly the rows at or after its cutoff, and never cuts inside the window. */
  lemma PruneKeeps(c: Config, s: State, cutoff: int)
    ensures var t := Step(c, s, World(Prune(cutoff)));
            t == s.(rows := t.rows) && (cutoff > s.now - c.lookback ==> t.rows == s.rows) &&
            (cutoff <= s.now - c.lookback ==>
               forall h :: if h in s.rows && s.rows[h].at >= cutoff then h in t.rows && t.rows[h] == s.rows[h]
                           else h !in t.rows)
  {
  }

  // ---- What the reconcile query returns ----

  /** Scheduled, unpublished, due, and at most thirty days late. */
  ghost predicate Due(s: State, p: PostId) {
    p in s.posts && s.posts[p].state == Scheduled && s.posts[p].messageId == None && s.posts[p].scheduledFor.Some? &&
    0 <= s.now - s.posts[p].scheduledFor.value <= 2_592_000_000
  }

  ghost predicate Lists(s: State, batch: seq<PostId>) {
    (forall i :: 0 <= i < |batch| ==> Due(s, batch[i])) &&
    (forall i, k :: 0 <= i < k < |batch| ==>
      batch[i] != batch[k] && s.posts[batch[i]].scheduledFor.value <= s.posts[batch[k]].scheduledFor.value)
  }

  lemma {:induction false} DistinctCount(batch: seq<PostId>, of: set<PostId>)
    requires forall i :: 0 <= i < |batch| ==> batch[i] in of
    requires forall i, k :: 0 <= i < k < |batch| ==> batch[i] != batch[k]
    ensures |batch| <= |of|
    ensures (exists p :: p in of && p !in batch) <==> |batch| < |of|
  {
    if batch != [] {
      var last := batch[|batch| - 1];
      DistinctCount(batch[..|batch| - 1], of - {last});
      assert batch == batch[..|batch| - 1] + [last];
      if p :| p in of && p !in batch { assert p in of - {last} && p !in batch[..|batch| - 1]; }
      if p :| p in of - {last} && p !in batch[..|batch| - 1] { assert p in of && p !in batch; }
    } else if of != {} {
      var p :| p in of;
    }
  }

  /** Up to a hundred due posts come back all together, oldest first; of more, the hundred oldest do. */
  lemma ReconcileReturns(s: State, batch: seq<PostId>)
    ensures var due := set p | p in s.posts && Due(s, p);
            OverdueBatch(s, batch) <==>
            Lists(s, batch) && |batch| == (if |due| < 100 then |due| else 100) &&
            forall p, q :: p in batch && q in due && q !in batch ==>
              s.posts[p].scheduledFor.value <= s.posts[q].scheduledFor.value
  {
    var due := set p | p in s.posts && Due(s, p);
    assert forall p :: p in s.posts ==> (Overdue(s, p) <==> p in due);
    if OverdueBatch(s, batch) || Lists(s, batch) { DistinctCount(batch, due); }
  }

  function Waited(s: State, p: PostId, at: int, elapsed: nat): State
    requires p in s.posts
  {
    s.(now := s.now + elapsed, owed := s.owed + multiset{p},
       posts := s.posts[p := s.posts[p].(state := Scheduled, scheduledFor := Some(at))])
  }

  lemma ScheduleWaits(c: Config, s: State, p: PostId, at: int, elapsed: nat)
    requires p in s.posts && s.now < at
    ensures Run(c, s, [World(Schedule(p, at))] + [World(Tick(elapsed))]) == Waited(s, p, at, elapsed)
  {
    RunPair(c, s, World(Schedule(p, at)), World(Tick(elapsed)));
    TickStep(c, ScheduleTx(s, p, at), elapsed);
    assert Step(c, s, World(Schedule(p, at))) == ScheduleTx(s, p, at);
    hide Run;
  }

  /**
   Scheduling owes one publish at once; when the time has come, and for thirty days, the
   gate lets the post through and reconcile owes one more, unless a hundred other due posts
   were scheduled no later.
   */
  lemma ScheduledIsReconciled(c: Config, s: State, p: PostId, at: int, elapsed: nat, batch: seq<PostId>)
    requires p in s.posts && s.posts[p].messageId.None? && s.now < at
    requires 0 <= s.now + elapsed - at <= 2_592_000_000
    requires OverdueBatch(Run(c, s, [World(Schedule(p, at))] + [World(Tick(elapsed))]), batch)
    ensures var t := Run(c, s, [World(Schedule(p, at))] + [World(Tick(elapsed))]);
            GatePasses(t, p) && t.owed == s.owed + multiset{p} &&
            t.posts[p] == s.posts[p].(state := Scheduled, scheduledFor := Some(at)) &&
            if p in batch then Step(c, t, World(Reconcile(batch))).owed[p] == s.owed[p] + 2
            else |batch| == 100 &&
                 forall q :: q in batch ==> q in t.posts && t.posts[q].scheduledFor.Some? &&
                                            t.posts[q].scheduledFor.value <= at
  {
    ScheduleWaits(c, s, p, at, elapsed);
    var t := Waited(s, p, at, elapsed);
    DueIsReturned(t, batch, p);
    if p in batch { ReconcileOwes(c, t, batch, p); }
    hide Run;
    hide OverdueBatch;
    hide Step;
    hide Due;
  }

  /** A due post comes back, or a hundred others due no later do. */
  lemma DueIsReturned(s: State, batch: seq<PostId>, p: PostId)
    requires OverdueBatch(s, batch) && Due(s, p)
    ensures p in batch ||
            (|batch| == 100 &&
             forall q :: q in batch ==> q in s.posts && s.posts[q].scheduledFor.Some? &&
                                        s.posts[q].scheduledFor.value <= s.posts[p].scheduledFor.value)
  {
    ReconcileReturns(s, batch);
    var due := set q | q in s.posts && Due(s, q);
    DistinctCount(batch, due);
    assert p in due;
  }

  lemma ReconcileOwes(c: Config, s: State, batch: seq<PostId>, p: PostId)
    requires OverdueBatch(s, batch) && p in batch
    ensures Step(c, s, World(Reconcile(batch))).owed[p] == s.owed[p] + 1
  {
    CountedOnce(batch, p);
    assert Step(c, s, World(Reconcile(batch))) == s.(owed := s.owed + multiset(batch));
  }

  lemma {:induction false} CountedOnce(batch: seq<PostId>, p: PostId)
    requires forall i, k :: 0 <= i < k < |batch| ==> batch[i] != batch[k]
    ensures multiset(batch)[p] == if p in batch then 1 else 0
  {
    if batch != [] {
      var rest, last := batch[..|batch| - 1], batch[|batch| - 1];
      CountedOnce(rest, p);
      assert batch == rest + [last];
    }
  }
}
