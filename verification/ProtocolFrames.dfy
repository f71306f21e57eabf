/** What one move of a publish run, and one normalize commit, leave alone. */
module ProtocolFrames {
  import opened Options
  import opened Protocol
  import opened ProtocolInvariants

  /** Past the gate and not yet failed: the run acts on the hash it read there. */
  predicate Active(phase: Phase) {
    !phase.AtGate? && !phase.AtFailure?
  }

  /** Sent and marked, or failed: the run will not touch the message id again. */
  predicate Done(phase: Phase) {
    phase.AtCard? || phase.AtFailure?
  }

  ghost predicate ColumnsKept(s: State, t: State) {
    t.posts.Keys == s.posts.Keys && t.nextPost == s.nextPost &&
    forall p :: p in s.posts ==>
      t.posts[p].hash == s.posts[p].hash && t.posts[p].content == s.posts[p].content &&
      (t.posts[p].state.Scheduled? ==> s.posts[p].state.Scheduled?)
  }

  ghost predicate QueuesKept(s: State, t: State) {
    t.loaded == s.loaded && t.owed == s.owed && t.queue == s.queue && t.now == s.now
  }

  /** The run keeps its post and start; it becomes active only by passing the gate. */
  predicate MovesOn(s: State, prev: Job, next: Job) {
    next.post == prev.post && next.start == prev.start &&
    (Done(prev.phase) ==> Done(next.phase)) &&
    (Active(next.phase) ==>
       (Active(prev.phase) && next.hash == prev.hash) ||
       (prev.phase.AtGate? && GatePasses(s, prev.post) && next.hash == s.posts[prev.post].hash))
  }

  ghost predicate OneRunMoved(s: State, t: State, j: JobId) {
    j in s.jobs && t.nextJob == s.nextJob && (forall i :: i in t.jobs ==> i in s.jobs) &&
    (forall i :: i in t.jobs && i != j ==> t.jobs[i] == s.jobs[i]) &&
    (j in t.jobs ==> MovesOn(s, s.jobs[j], t.jobs[j]))
  }

  /** History entries keep their hash, run and time; only `released` may change. */
  ghost predicate HistoryKept(s: State, t: State) {
    |s.history| <= |t.history| &&
    forall i :: 0 <= i < |s.history| ==>
      t.history[i].hash == s.history[i].hash && t.history[i].job == s.history[i].job &&
      t.history[i].at == s.history[i].at
  }

  lemma CommitColumnsAt(s: State, j: JobId)
    requires j in s.jobs && s.jobs[j].post in s.posts && s.jobs[j].post in Commit(s, j).posts
    ensures var p := s.jobs[j].post; var post := Commit(s, j).posts[p];
            post.hash == s.posts[p].hash && post.content == s.posts[p].content &&
            (post.state.Scheduled? ==> s.posts[p].state.Scheduled?)
  {
  }

  lemma CommitColumns(s: State, j: JobId)
    requires j in s.jobs
    ensures ColumnsKept(s, Commit(s, j))
  {
    CommitFrame(s, j);
    if s.jobs[j].post in s.posts { CommitColumnsAt(s, j); }
  }

  lemma ReserveHistory(s: State, j: JobId, h: Hash)
    ensures HistoryKept(s, ReserveTx(s, j, h))
  {
  }

  lemma MarkHistory(s: State, j: JobId, p: PostId, id: nat, hash: Option<Hash>)
    ensures HistoryKept(s, MarkPublishedTx(s, j, p, id, hash))
  {
    if p in s.posts && hash.Some? {
      ReserveHistory(SetPost(s, p, s.posts[p].(state := Published, messageId := Some(id))), j, hash.value);
    }
    hide ReserveTx;
  }

  lemma CommitHistory(s: State, j: JobId)
    requires j in s.jobs
    ensures HistoryKept(s, Commit(s, j))
  {
    var job := s.jobs[j];
    if job.phase.AtReserve? && job.hash.Some? {
      ReserveHistory(s, j, job.hash.value);
    } else if job.phase.AtMark? {
      MarkHistory(s, j, job.post, job.phase.id, job.hash);
    }
    hide ReserveTx;
    hide MarkPublishedTx;
  }

  lemma TransactionMoved(c: Config, s: State, j: JobId, m: Move)
    requires MoveEnabled(c, s, j, m) && TransactionMove(m)
    ensures OneRunMoved(s, MoveEffect(c, s, j, m), j)
  {
    CommitFrame(s, j);
  }

  lemma TransactionFrame(c: Config, s: State, j: JobId, m: Move)
    requires MoveEnabled(c, s, j, m) && TransactionMove(m)
    ensures var t := MoveEffect(c, s, j, m);
            ColumnsKept(s, t) && QueuesKept(s, t) && HistoryKept(s, t) && OneRunMoved(s, t, j) && t.sends == s.sends
  {
    TransactionMoved(c, s, j, m);
    TransactionTables(c, s, j, m);
    CommitColumns(s, j);
    CommitHistory(s, j);
    CommitFrame(s, j);
    hide OneRunMoved;
    hide Commit;
    hide MoveEffect;
  }

  lemma SectionFrame(c: Config, s: State, j: JobId, m: Move)
    requires MoveEnabled(c, s, j, m) && !TransactionMove(m)
    ensures var t := MoveEffect(c, s, j, m);
            t.posts == s.posts && t.nextPost == s.nextPost && QueuesKept(s, t) && t.history == s.history &&
            OneRunMoved(s, t, j)
    ensures var t := MoveEffect(c, s, j, m);
            s.sends <= t.sends && (!m.AttemptOk? ==> t.sends == s.sends)
  {
  }

  lemma MoveFrame(c: Config, s: State, j: JobId, m: Move)
    requires MoveEnabled(c, s, j, m)
    ensures var t := MoveEffect(c, s, j, m);
            ColumnsKept(s, t) && QueuesKept(s, t) && HistoryKept(s, t) && OneRunMoved(s, t, j) && s.sends <= t.sends
    ensures m.AttemptOk? || MoveEffect(c, s, j, m).sends == s.sends
  {
    if TransactionMove(m) { TransactionFrame(c, s, j, m); } else { SectionFrame(c, s, j, m); }
  }

  /** Normalize writes one hash, may reject that post, and may owe a publish for it. */
  ghost predicate Normalized(s: State, t: State, p: PostId, content: Hash, duplicate: bool, auto: bool) {
    t.nextPost == s.nextPost && t.jobs == s.jobs && t.queue == s.queue && t.sends == s.sends &&
    t.posts.Keys == s.posts.Keys &&
    (forall q :: q in s.posts && q != p ==> t.posts[q] == s.posts[q]) &&
    (p in s.posts ==>
       t.posts[p].hash == Some(content) && t.posts[p].content == s.posts[p].content &&
       (t.posts[p].state.Scheduled? ==> s.posts[p].state.Scheduled?)) &&
    (forall x :: x in t.loaded ==> x in s.loaded) &&
    (p in s.posts && s.posts[p].state.Rejected? ==> t.posts[p].state.Rejected?) &&
    (forall q :: q in t.owed ==> q in s.owed || (q == p && p in s.posts && auto && !duplicate))
  }

  lemma NormalizeShape(s: State, p: PostId, content: Hash, duplicate: bool, auto: bool)
    ensures Normalized(s, NormalizeTx(s, p, content, duplicate, auto), p, content, duplicate, auto)
  {
  }
}
