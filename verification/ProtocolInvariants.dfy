/**
 Inductive invariants of the publish protocol. `Base` holds in every run. `Index` is
 what makes the dedupe table trustworthy and needs `Sound`: a run cannot outlive its
 row, or no send can ever start.
 */
module ProtocolInvariants {
  import opened Options
  import opened Protocol

  predicate InSection(phase: Phase) {
    phase.Spacing? || phase.Sending? || phase.Backoff?
  }

  predicate Attempted(phase: Phase) {
    phase.Sending? || phase.Backoff? || phase.AtRelease? || phase.AtMark? || phase.AtCard?
  }

  predicate NeedsHash(phase: Phase) {
    phase.AtCheck? || phase.AtReserve? || phase.AtMarkDuplicate?
  }

  /** Between a successful reserve and the release or the mark. */
  predicate Holds(job: Job) {
    job.hash.Some? &&
    (job.phase.AwaitLock? || InSection(job.phase) || job.phase.AtRelease? || job.phase.AtMark?)
  }

  ghost predicate JobsKnown(c: Config, s: State) {
    && (forall j :: j in s.jobs ==>
          j < s.nextJob && s.jobs[j].start <= s.now &&
          (Attempted(s.jobs[j].phase) ==> s.jobs[j].start + c.spacing <= s.now) &&
          (NeedsHash(s.jobs[j].phase) ==> s.jobs[j].hash.Some?))
    && (forall j :: j in s.jobs && InSection(s.jobs[j].phase) ==> s.lock == Some(j))
  }

  ghost predicate ClosedBefore(attempts: seq<Attempt>, n: nat, now: int)
    requires n <= |attempts|
  {
    forall i :: 0 <= i < n ==>
      attempts[i].end.Some? && attempts[i].start <= attempts[i].end.value <= now
  }

  /** The lock holder's next attempt starts late enough; only the holder's last attempt is open. */
  ghost predicate HolderWaits(c: Config, s: State, j: JobId) {
    j in s.jobs &&
    var n := |s.attempts|;
    match s.jobs[j].phase
    case Spacing(until) =>
      && ClosedBefore(s.attempts, n, s.now)
      && s.jobs[j].start + c.spacing <= until
      && (forall i :: 0 <= i < n ==> s.attempts[i].end.value + c.spacing <= until)
    case Backoff(until) =>
      && ClosedBefore(s.attempts, n, s.now)
      && n > 0 && s.attempts[n - 1].job == j && !s.attempts[n - 1].retry && s.attempts[n - 1].wait.Some?
      && s.attempts[n - 1].end.value + (s.attempts[n - 1].wait.value + 1) * SECOND <= until
    case Sending(retry) =>
      && n > 0 && ClosedBefore(s.attempts, n - 1, s.now)
      && s.attempts[n - 1].job == j && s.attempts[n - 1].retry == retry
      && s.attempts[n - 1].start <= s.now && s.attempts[n - 1].end.None?
    case _ => false
  }

  ghost predicate Section(c: Config, s: State) {
    && (s.lock.None? ==> ClosedBefore(s.attempts, |s.attempts|, s.now))
    && (s.lock.Some? ==> HolderWaits(c, s, s.lock.value))
    && SpacedAttempts(c, s.attempts)
    && AttemptsAccounted(s)
  }

  ghost predicate SpacedAttempts(c: Config, attempts: seq<Attempt>) {
    && (forall i, k :: 0 <= i < k < |attempts| && !attempts[k].retry ==>
          attempts[i].end.Some? && attempts[i].end.value + c.spacing <= attempts[k].start)
    && (forall k :: 0 <= k < |attempts| && attempts[k].retry ==> k > 0 && RetryOf(attempts[k - 1], attempts[k]))
    && (forall i, k :: 0 <= i < k < |attempts| && attempts[i].job == attempts[k].job ==>
          k == i + 1 && !attempts[i].retry && attempts[k].retry)
  }

  /** A retry follows a first attempt of the same run that failed with RetryAfter, and waited it out. */
  predicate RetryOf(failed: Attempt, retry: Attempt) {
    failed.job == retry.job && !failed.retry && failed.end.Some? && failed.wait.Some? &&
    failed.end.value + (failed.wait.value + 1) * SECOND <= retry.start
  }

  ghost predicate AttemptsAccounted(s: State) {
    forall i :: 0 <= i < |s.attempts| ==>
      s.attempts[i].job < s.nextJob &&
      (s.attempts[i].job in s.jobs ==>
         Attempted(s.jobs[s.attempts[i].job].phase) || s.jobs[s.attempts[i].job].phase.AtFailure?)
  }

  /** Every run sends at most once and then only marks, edits the card, or fails. */
  ghost predicate SendsAccounted(s: State) {
    && (forall k :: 0 <= k < |s.sends| ==> s.sends[k].job < s.nextJob)
    && (forall i, k :: 0 <= i < k < |s.sends| ==> s.sends[i].job != s.sends[k].job)
    && (forall k :: 0 <= k < |s.sends| && s.sends[k].job in s.jobs ==>
          var phase := s.jobs[s.sends[k].job].phase;
          phase.AtMark? || phase.AtCard? || phase.AtFailure?)
    && (forall j :: j in s.jobs && s.jobs[j].phase.AtMark? ==>
          exists k :: 0 <= k < |s.sends| && SendOf(s.sends[k], j, s.jobs[j]))
  }

  predicate SendOf(send: Send, j: JobId, job: Job)
    requires job.phase.AtMark?
  {
    send.job == j && send.post == job.post && send.hash == job.hash && send.res == job.res && send.id == job.phase.id
  }

  /** `published` implies a message id, and a message id is the id of a completed send of that post. */
  ghost predicate IdsTruthful(s: State) {
    && (forall p :: p in s.posts ==> p < s.nextPost)
    && (forall p :: p in s.posts && s.posts[p].state.Published? ==> s.posts[p].messageId.Some?)
    && (forall p :: p in s.posts && s.posts[p].messageId.Some? ==>
          exists k :: 0 <= k < |s.sends| && s.sends[k].post == p && s.sends[k].id == s.posts[p].messageId.value)
  }

  ghost predicate Base(c: Config, s: State) {
    JobsKnown(c, s) && Section(c, s) && SendsAccounted(s) && IdsTruthful(s)
  }

  // ---- The dedupe table ----

  /** Either no run outlives the lookback window, or every run times out before it may send. */
  predicate Sound(c: Config) {
    c.timeout <= c.lookback || c.timeout < c.spacing
  }

  ghost predicate RowsRecorded(s: State) {
    && (forall i :: 0 <= i < |s.history| ==> s.history[i].at <= s.now && s.history[i].job < s.nextJob)
    && (forall h :: h in s.rows ==>
          s.rows[h].id < |s.history| &&
          var r := s.history[s.rows[h].id];
          r.hash == h && r.at == s.rows[h].at && !r.released)
  }

  /** An unreleased reservation is in the table unless the window has passed it. */
  ghost predicate UnreleasedKept(c: Config, s: State) {
    forall i :: 0 <= i < |s.history| && !s.history[i].released ==>
      (s.history[i].hash in s.rows && s.rows[s.history[i].hash].id == i) || s.history[i].at + c.lookback < s.now
  }

  /** A hash is reserved again only after every unreleased reservation of it left the window. */
  ghost predicate ReservationsApart(c: Config, history: seq<Reservation>) {
    forall i, k :: 0 <= i < k < |history| && history[i].hash == history[k].hash && !history[i].released ==>
      history[i].at + c.lookback < history[k].at
  }

  /** A holding run's reservation is its own, unreleased, and was made after the run began. */
  predicate Reserved(c: Config, s: State, j: JobId, job: Job) {
    job.hash.Some? && job.res < |s.history| &&
    var r := s.history[job.res];
    r.hash == job.hash.value && r.job == j && !r.released && job.start <= r.at <= s.now &&
    (job.phase.Spacing? ==> r.at + c.spacing <= job.phase.until) &&
    (Attempted(job.phase) ==> r.at + c.spacing <= s.now)
  }

  ghost predicate HoldersReserved(c: Config, s: State) {
    forall j :: j in s.jobs && Holds(s.jobs[j]) ==> Reserved(c, s, j, s.jobs[j])
  }

  ghost predicate SendsReserved(c: Config, s: State) {
    forall k :: 0 <= k < |s.sends| && s.sends[k].hash.Some? ==>
      var send := s.sends[k];
      send.res < |s.history| && send.at <= s.now &&
      var r := s.history[send.res];
      r.hash == send.hash.value && r.job == send.job && !r.released &&
      r.at + c.spacing <= send.at <= r.at + c.timeout
  }

  ghost predicate Index(c: Config, s: State) {
    && RowsRecorded(s) && UnreleasedKept(c, s) && ReservationsApart(c, s.history)
    && HoldersReserved(c, s) && SendsReserved(c, s)
  }

  // ---- Preservation of Base ----

  /** Post columns as a transaction other than a mark may change them. */
  ghost predicate IdsKept(s: State, t: State) {
    forall p :: p in t.posts ==>
      p < t.nextPost &&
      if p in s.posts then
        t.posts[p].messageId == s.posts[p].messageId && (t.posts[p].state.Published? ==> s.posts[p].state.Published?)
      else t.posts[p].messageId.None? && !t.posts[p].state.Published?
  }

  lemma BaseOutside(c: Config, s: State, t: State)
    requires Base(c, s) && IdsKept(s, t) && s.now <= t.now
    requires t.jobs == s.jobs && t.nextJob == s.nextJob && t.lock == s.lock
    requires t.sends == s.sends && t.attempts == s.attempts
    ensures Base(c, t)
  {
    assert JobsKnown(c, t) && Section(c, t);
    assert SendsAccounted(t) && IdsTruthful(t);
  }

  /** A transaction touches the tables only, and only a mark sets a message id: that of its own send. */
  lemma CommitFrame(s: State, j: JobId)
    requires j in s.jobs
    ensures var t := Commit(s, j);
            t == s.(posts := t.posts, rows := t.rows, history := t.history) && t.posts.Keys == s.posts.Keys
    ensures forall p :: p in s.posts && p != s.jobs[j].post ==> Commit(s, j).posts[p] == s.posts[p]
    ensures !s.jobs[j].phase.AtMark? && (forall p :: p in s.posts ==> p < s.nextPost) ==> IdsKept(s, Commit(s, j))
    ensures s.jobs[j].phase.AtMark? && s.jobs[j].post in s.posts ==>
              Commit(s, j).posts[s.jobs[j].post].messageId == Some(s.jobs[j].phase.id)
  {
    CommitShape(s, j);
    if s.jobs[j].post in s.posts { CommitOwnPost(s, j); }
    hide Commit;
  }

  lemma CommitShape(s: State, j: JobId)
    requires j in s.jobs
    ensures var t := Commit(s, j);
            t == s.(posts := t.posts, rows := t.rows, history := t.history) && t.posts.Keys == s.posts.Keys &&
            (forall p :: p in s.posts && p != s.jobs[j].post ==> t.posts[p] == s.posts[p])
  {
    if s.jobs[j].phase.AtMark? { MarkShape(s, j, s.jobs[j].post, s.jobs[j].phase.id, s.jobs[j].hash); }
    hide MarkPublishedTx;
  }

  lemma MarkShape(s: State, j: JobId, p: PostId, id: nat, hash: Option<Hash>)
    ensures var t := MarkPublishedTx(s, j, p, id, hash);
            t == s.(posts := t.posts, rows := t.rows, history := t.history) && t.posts.Keys == s.posts.Keys &&
            (forall q :: q in s.posts && q != p ==> t.posts[q] == s.posts[q])
  {
  }

  lemma CommitOwnPost(s: State, j: JobId)
    requires j in s.jobs && s.jobs[j].post in s.posts
    ensures var p := s.jobs[j].post; var t := Commit(s, j);
            p in t.posts &&
            if s.jobs[j].phase.AtMark? then t.posts[p].messageId == Some(s.jobs[j].phase.id)
            else
              t.posts[p].messageId == s.posts[p].messageId &&
              (t.posts[p].state.Published? ==> s.posts[p].state.Published?)
  {
  }

  /** How a run outside the critical section may move on. */
  predicate Follows(prev: Job, next: Job) {
    prev.post == next.post && prev.start == next.start &&
    !InSection(prev.phase) && !InSection(next.phase) && !next.phase.AtMark? && !prev.phase.AtFailure? &&
    (Attempted(next.phase) ==> Attempted(prev.phase)) &&
    (NeedsHash(next.phase) ==> next.hash.Some? || (NeedsHash(prev.phase) && next.hash == prev.hash)) &&
    (Attempted(prev.phase) ==> Attempted(next.phase) || next.phase.AtFailure?) &&
    (prev.phase.AtMark? || prev.phase.AtCard? ==> next.phase.AtCard? || next.phase.AtFailure?)
  }

  /** `t` is `s` with run `j`'s transaction committed or not, and the run moved to `next` or ended. */
  ghost predicate TransactionOf(s: State, t: State, j: JobId, committed: bool, next: Option<Job>) {
    j in s.jobs && InTransaction(s.jobs[j].phase) &&
    (next.Some? ==> Follows(s.jobs[j], next.value)) &&
    var u := if committed then Commit(s, j) else s;
    t == u.(jobs := if next.None? then s.jobs - {j} else s.jobs[j := next.value])
  }

  lemma TransactionKnown(c: Config, s: State, t: State, j: JobId, committed: bool, next: Option<Job>)
    requires JobsKnown(c, s) && TransactionOf(s, t, j, committed, next)
    ensures JobsKnown(c, t)
  {
    CommitFrame(s, j);
  }

  lemma TransactionSection(c: Config, s: State, t: State, j: JobId, committed: bool, next: Option<Job>)
    requires JobsKnown(c, s) && Section(c, s) && TransactionOf(s, t, j, committed, next)
    ensures Section(c, t)
  {
    CommitFrame(s, j);
    assert t.lock != Some(j);
  }

  lemma TransactionSends(s: State, t: State, j: JobId, committed: bool, next: Option<Job>)
    requires SendsAccounted(s) && TransactionOf(s, t, j, committed, next)
    ensures SendsAccounted(t)
  {
    CommitFrame(s, j);
  }

  lemma TransactionIds(s: State, t: State, j: JobId, committed: bool, next: Option<Job>)
    requires SendsAccounted(s) && IdsTruthful(s) && TransactionOf(s, t, j, committed, next)
    ensures IdsTruthful(t)
  {
    CommitFrame(s, j);
    if s.jobs[j].phase.AtMark? {
      var k :| 0 <= k < |s.sends| && SendOf(s.sends[k], j, s.jobs[j]);
      assert t.sends[k].post == s.jobs[j].post && t.sends[k].id == s.jobs[j].phase.id;
    }
  }

  predicate TransactionMove(m: Move) {
    m.Advance? || m.NoChannel? || m.Raise?
  }

  /** Every transaction move is a `TransactionOf`. */
  lemma TransactionShape(c: Config, s: State, j: JobId, m: Move) returns (committed: bool, next: Option<Job>)
    requires JobsKnown(c, s) && MoveEnabled(c, s, j, m) && TransactionMove(m)
    ensures TransactionOf(s, MoveEffect(c, s, j, m), j, committed, next)
    ensures next.Some? && !next.value.phase.AtFailure? ==> committed && next == Successor(s, j) && m.Advance?
  {
    committed := if m.Raise? then m.committed else true;
    next :=
      if m.Advance? then Successor(s, j)
      else if m.NoChannel? || s.jobs[j].phase.AtFailure? then None
      else Some(s.jobs[j].(phase := AtFailure));
    CommitFrame(s, j);
    assert next.Some? ==> Follows(s.jobs[j], next.value);
  }

  /** A transaction move commits the tables or leaves them. */
  lemma TransactionTables(c: Config, s: State, j: JobId, m: Move)
    requires MoveEnabled(c, s, j, m) && TransactionMove(m)
    ensures var t := MoveEffect(c, s, j, m); t == s.(jobs := t.jobs) || t == Commit(s, j).(jobs := t.jobs)
  {
    hide Commit;
  }

  // ---- Preservation of Base: the critical section ----

  lemma StartSection(c: Config, s: State, p: PostId)
    requires JobsKnown(c, s) && Section(c, s)
    ensures JobsKnown(c, StartJob(s, p)) && Section(c, StartJob(s, p))
  {
  }

  lemma AcquireSection(c: Config, s: State, j: JobId)
    requires JobsKnown(c, s) && Section(c, s) && j in s.jobs && s.jobs[j].phase.AwaitLock? && s.lock.None?
    ensures JobsKnown(c, Acquire(c, s, j)) && Section(c, Acquire(c, s, j))
  {
  }

  lemma BeginHolder(c: Config, s: State, j: JobId)
    requires JobsKnown(c, s) && Section(c, s) && j in s.jobs && (s.jobs[j].phase.Spacing? || s.jobs[j].phase.Backoff?)
    requires s.now >= s.jobs[j].phase.until
    ensures HolderWaits(c, Begin(s, j), j) && AttemptsAccounted(Begin(s, j)) && s.lock == Some(j)
  {
  }

  lemma BeginSpaced(c: Config, s: State, j: JobId)
    requires JobsKnown(c, s) && Section(c, s) && j in s.jobs && (s.jobs[j].phase.Spacing? || s.jobs[j].phase.Backoff?)
    requires s.now >= s.jobs[j].phase.until
    ensures SpacedAttempts(c, Begin(s, j).attempts)
  {
    SpacedNext(c, s.attempts, Attempt(j, s.jobs[j].phase.Backoff?, s.now, None, None));
    hide SpacedAttempts;
  }

  /** One more attempt: a first one of its run a spacing after all others, or a retry right after its failure. */
  lemma SpacedNext(c: Config, attempts: seq<Attempt>, next: Attempt)
    requires SpacedAttempts(c, attempts)
    requires !next.retry ==> forall i :: 0 <= i < |attempts| ==>
               attempts[i].end.Some? && attempts[i].end.value + c.spacing <= next.start && attempts[i].job != next.job
    requires next.retry ==> attempts != [] && RetryOf(attempts[|attempts| - 1], next)
    ensures SpacedAttempts(c, attempts + [next])
  {
  }

  lemma BeginSection(c: Config, s: State, j: JobId)
    requires JobsKnown(c, s) && Section(c, s) && j in s.jobs && (s.jobs[j].phase.Spacing? || s.jobs[j].phase.Backoff?)
    requires s.now >= s.jobs[j].phase.until
    ensures JobsKnown(c, Begin(s, j)) && Section(c, Begin(s, j))
  {
    BeginHolder(c, s, j);
    BeginSpaced(c, s, j);
  }

  /** Closing the open attempt disturbs no spacing. */
  lemma CloseKeeps(c: Config, attempts: seq<Attempt>, now: int, wait: Option<nat>)
    requires SpacedAttempts(c, attempts) && |attempts| > 0 && ClosedBefore(attempts, |attempts| - 1, now)
    requires attempts[|attempts| - 1].start <= now
    ensures SpacedAttempts(c, Closed(attempts, now, wait))
    ensures ClosedBefore(Closed(attempts, now, wait), |attempts|, now)
  {
  }

  lemma SendOkSection(c: Config, s: State, j: JobId, id: nat)
    requires JobsKnown(c, s) && Section(c, s) && j in s.jobs && s.jobs[j].phase.Sending?
    ensures JobsKnown(c, SendOk(s, j, id)) && Section(c, SendOk(s, j, id))
  {
    CloseKeeps(c, s.attempts, s.now, None);
    hide SpacedAttempts;
  }

  lemma RetryAfterSection(c: Config, s: State, j: JobId, seconds: nat)
    requires JobsKnown(c, s) && Section(c, s) && j in s.jobs && s.jobs[j].phase == Sending(false)
    ensures JobsKnown(c, RetryAfter(s, j, seconds)) && Section(c, RetryAfter(s, j, seconds))
  {
    CloseKeeps(c, s.attempts, s.now, Some(seconds));
    hide SpacedAttempts;
  }

  lemma SendFailsSection(c: Config, s: State, j: JobId)
    requires JobsKnown(c, s) && Section(c, s) && j in s.jobs && s.jobs[j].phase.Sending?
    ensures JobsKnown(c, EndSection(s, j, AtRelease)) && Section(c, EndSection(s, j, AtRelease))
  {
    CloseKeeps(c, s.attempts, s.now, None);
    hide SpacedAttempts;
  }

  lemma CrashSection(c: Config, s: State, j: JobId)
    requires JobsKnown(c, s) && Section(c, s) && j in s.jobs
    ensures JobsKnown(c, CrashJob(s, j)) && Section(c, CrashJob(s, j))
  {
    hide SpacedAttempts;
    if s.jobs[j].phase.Sending? {
      CloseKeeps(c, s.attempts, s.now, None);
    }
  }

  lemma SendOkSends(s: State, j: JobId, id: nat)
    requires SendsAccounted(s) && IdsTruthful(s) && j in s.jobs && j < s.nextJob && s.jobs[j].phase.Sending?
    ensures SendsAccounted(SendOk(s, j, id)) && IdsTruthful(SendOk(s, j, id))
  {
    SendOkAccounted(s, j, id);
    MoreSendsTruthful(s, SendOk(s, j, id));
    hide SendsAccounted;
    hide IdsTruthful;
  }

  lemma MoreSendsTruthful(s: State, t: State)
    requires IdsTruthful(s) && t.posts == s.posts && t.nextPost == s.nextPost && s.sends <= t.sends
    ensures IdsTruthful(t)
  {
    forall p | p in t.posts && t.posts[p].messageId.Some?
      ensures exists k :: 0 <= k < |t.sends| && t.sends[k].post == p && t.sends[k].id == t.posts[p].messageId.value
    {
      var k :| 0 <= k < |s.sends| && s.sends[k].post == p && s.sends[k].id == s.posts[p].messageId.value;
      assert t.sends[k] == s.sends[k];
    }
  }

  lemma SendOkAccounted(s: State, j: JobId, id: nat)
    requires SendsAccounted(s) && j in s.jobs && j < s.nextJob && s.jobs[j].phase.Sending?
    ensures SendsAccounted(SendOk(s, j, id))
  {
    var t := SendOk(s, j, id);
    assert t.sends[..|s.sends|] == s.sends;
    forall i | i in t.jobs && t.jobs[i].phase.AtMark?
      ensures exists k :: 0 <= k < |t.sends| && SendOf(t.sends[k], i, t.jobs[i])
    {
      if i == j {
        assert SendOf(t.sends[|s.sends|], j, t.jobs[j]);
      } else {
        var k :| 0 <= k < |s.sends| && SendOf(s.sends[k], i, s.jobs[i]);
        assert SendOf(t.sends[k], i, t.jobs[i]);
      }
    }
  }

  /** Runs that move without sending or marking keep what is known about sends. */
  lemma QuietSends(s: State, t: State, j: JobId)
    requires SendsAccounted(s) && IdsTruthful(s)
    requires t.sends == s.sends && t.posts == s.posts && s.nextJob <= t.nextJob && t.nextPost == s.nextPost
    requires forall i :: i in t.jobs && i != j ==> i in s.jobs && t.jobs[i] == s.jobs[i]
    requires j in t.jobs ==> !t.jobs[j].phase.AtMark?
    requires j in t.jobs && j in s.jobs ==>
               !s.jobs[j].phase.AtMark? && !s.jobs[j].phase.AtCard? && !s.jobs[j].phase.AtFailure?
    requires j in t.jobs && j !in s.jobs ==> j == s.nextJob
    ensures SendsAccounted(t) && IdsTruthful(t)
  {
  }

  lemma SectionMove(c: Config, s: State, j: JobId, m: Move)
    requires JobsKnown(c, s) && Section(c, s) && MoveEnabled(c, s, j, m) && !TransactionMove(m)
    ensures JobsKnown(c, MoveEffect(c, s, j, m)) && Section(c, MoveEffect(c, s, j, m))
  {
    match m
    case AcquireLock => AcquireSection(c, s, j);
    case BeginAttempt => BeginSection(c, s, j);
    case AttemptOk(id) => SendOkSection(c, s, j, id);
    case AttemptRetryAfter(seconds) => RetryAfterSection(c, s, j, seconds);
    case AttemptFails => SendFailsSection(c, s, j);
    case Crash => CrashSection(c, s, j);
  }

  lemma SectionStep(c: Config, s: State, j: JobId, m: Move)
    requires Base(c, s) && MoveEnabled(c, s, j, m) && !TransactionMove(m)
    ensures Base(c, MoveEffect(c, s, j, m))
  {
    SectionMove(c, s, j, m);
    hide JobsKnown;
    hide Section;
    if m.AttemptOk? {
      assert j < s.nextJob by { KnownJob(c, s, j); }
      SendOkSends(s, j, m.id);
    } else {
      QuietSends(s, MoveEffect(c, s, j, m), j);
    }
    hide SendsAccounted;
    hide IdsTruthful;
  }

  lemma KnownJob(c: Config, s: State, j: JobId)
    requires JobsKnown(c, s) && j in s.jobs
    ensures j < s.nextJob && s.jobs[j].start <= s.now
  {
  }

  lemma MoveBase(c: Config, s: State, j: JobId, m: Move)
    requires Base(c, s) && MoveEnabled(c, s, j, m)
    ensures Base(c, MoveEffect(c, s, j, m))
  {
    if TransactionMove(m) {
      var t := MoveEffect(c, s, j, m);
      var committed, next := TransactionShape(c, s, j, m);
      TransactionKnown(c, s, t, j, committed, next);
      TransactionSection(c, s, t, j, committed, next);
      TransactionSends(s, t, j, committed, next);
      TransactionIds(s, t, j, committed, next);
    } else {
      SectionStep(c, s, j, m);
    }
  }

  // ---- Preservation of Base: everyone else ----

  ghost predicate RunsKept(s: State, t: State) {
    t.jobs == s.jobs && t.nextJob == s.nextJob && t.lock == s.lock &&
    t.sends == s.sends && t.attempts == s.attempts && s.now <= t.now
  }

  lemma NormalizeFrame(s: State, p: PostId, content: Hash, duplicate: bool, auto: bool)
    requires forall q :: q in s.posts ==> q < s.nextPost
    ensures var t := NormalizeTx(s, p, content, duplicate, auto);
            RunsKept(s, t) && IdsKept(s, t) && t.rows == s.rows && t.history == s.history && t.now == s.now
  {
  }

  /** Ingestion, deletion and the editors: the events that write post columns without normalizing. */
  predicate Decides(e: Event) {
    e.Approve? || e.Schedule? || e.Reject? || e.Ingest? || e.StoreMedia? || e.RemovePost?
  }

  lemma DecisionFrame(c: Config, s: State, e: Event)
    requires EventEnabled(c, s, e) && Decides(e)
    ensures var t := EventEffect(c, s, e);
            RunsKept(s, t) && t.history == s.history && t.rows == s.rows
  {
  }

  lemma DecisionIds(c: Config, s: State, e: Event)
    requires EventEnabled(c, s, e) && Decides(e) && (forall p :: p in s.posts ==> p < s.nextPost)
    ensures IdsKept(s, EventEffect(c, s, e))
  {
  }

  lemma QuietFrame(c: Config, s: State, e: Event)
    requires EventEnabled(c, s, e) && !Decides(e) && !e.NormalizeCommit? && !e.Start?
    ensures var t := EventEffect(c, s, e);
            RunsKept(s, t) && t.history == s.history && (!e.Prune? ==> t.rows == s.rows) &&
            t.posts == s.posts && t.nextPost == s.nextPost
  {
    hide IsDuplicate;
  }

  lemma EventFrame(c: Config, s: State, e: Event)
    requires EventEnabled(c, s, e) && !e.Start? && (forall p :: p in s.posts ==> p < s.nextPost)
    ensures RunsKept(s, EventEffect(c, s, e)) && IdsKept(s, EventEffect(c, s, e))
    ensures EventEffect(c, s, e).history == s.history
    ensures !e.Prune? ==> EventEffect(c, s, e).rows == s.rows
  {
    if e.NormalizeCommit? {
      NormalizeFrame(s, e.post, e.content, e.duplicate, e.auto);
      hide NormalizeTx;
    } else {
      hide EventEffect;
      if Decides(e) {
        DecisionFrame(c, s, e);
        DecisionIds(c, s, e);
      } else {
        QuietFrame(c, s, e);
      }
    }
  }

  lemma EventBase(c: Config, s: State, e: Event)
    requires Base(c, s) && EventEnabled(c, s, e)
    ensures Base(c, EventEffect(c, s, e))
  {
    if e.Start? {
      StartSection(c, s, e.post);
      QuietSends(s, StartJob(s, e.post), s.nextJob);
    } else {
      EventFrame(c, s, e);
      BaseOutside(c, s, EventEffect(c, s, e));
    }
  }

  lemma BaseStep(c: Config, s: State, a: Action)
    requires Base(c, s)
    ensures Base(c, Step(c, s, a))
  {
    if Enabled(c, s, a) {
      match a
      case World(e) => EventBase(c, s, e);
      case OfRun(j, m) => MoveBase(c, s, j, m);
    }
  }

  // ---- Preservation of Index ----

  /** A live holder that may already have sent still has its reservation inside the window. */
  lemma LiveHolderKept(c: Config, s: State, j: JobId)
    requires Sound(c) && Base(c, s) && Index(c, s)
    requires Live(c, s, j) && Holds(s.jobs[j]) && Attempted(s.jobs[j].phase)
    ensures s.jobs[j].hash.value in s.rows && s.rows[s.jobs[j].hash.value].id == s.jobs[j].res
  {
    assert s.history[s.jobs[j].res].hash == s.jobs[j].hash.value;
  }

  lemma IndexOutside(c: Config, s: State, t: State)
    requires Index(c, s) && RunsKept(s, t) && t.rows == s.rows && t.history == s.history
    ensures Index(c, t)
  {
  }

  lemma PruneIndex(c: Config, s: State, cutoff: int)
    requires Index(c, s) && cutoff <= s.now - c.lookback
    ensures Index(c, PruneTx(s, cutoff))
  {
  }

  lemma ReserveRecorded(c: Config, s: State, j: JobId, h: Hash)
    requires RowsRecorded(s) && j < s.nextJob
    ensures RowsRecorded(ReserveTx(s, j, h)) && s.history <= ReserveTx(s, j, h).history
  {
  }

  lemma ReserveIndex(c: Config, s: State, j: JobId, h: Hash)
    requires RowsRecorded(s) && UnreleasedKept(c, s) && ReservationsApart(c, s.history)
    ensures UnreleasedKept(c, ReserveTx(s, j, h)) && ReservationsApart(c, ReserveTx(s, j, h).history)
  {
  }

  lemma ReleaseIndex(c: Config, s: State, j: JobId)
    requires Sound(c) && Base(c, s) && Index(c, s) && Live(c, s, j) && s.jobs[j].phase.AtRelease?
    ensures RowsRecorded(Commit(s, j)) && UnreleasedKept(c, Commit(s, j)) && ReservationsApart(c, Commit(s, j).history)
  {
    if s.jobs[j].hash.Some? { LiveHolderKept(c, s, j); }
  }

  /** The insert that `_mark_published` repeats finds the row already there. */
  lemma MarkIndex(c: Config, s: State, j: JobId)
    requires Sound(c) && Base(c, s) && Index(c, s) && Live(c, s, j) && s.jobs[j].phase.AtMark?
    ensures Commit(s, j).rows == s.rows && Commit(s, j).history == s.history
  {
    if s.jobs[j].hash.Some? { LiveHolderKept(c, s, j); }
  }

  lemma CommitTables(c: Config, s: State, j: JobId)
    requires Sound(c) && Base(c, s) && Index(c, s) && Live(c, s, j) && InTransaction(s.jobs[j].phase)
    ensures var t := Commit(s, j);
            RowsRecorded(t) && UnreleasedKept(c, t) && ReservationsApart(c, t.history)
    ensures var t := Commit(s, j);
            |s.history| <= |t.history| &&
            var released := if s.jobs[j].phase.AtRelease? && s.jobs[j].hash.Some? then s.jobs[j].res else |s.history|;
            forall i :: 0 <= i < |s.history| && i != released ==>
              t.history[i] == s.history[i]
  {
    CommitFrame(s, j);
    match s.jobs[j].phase
    case AtReserve =>
      ReserveRecorded(c, s, j, s.jobs[j].hash.value);
      ReserveIndex(c, s, j, s.jobs[j].hash.value);
    case AtRelease => ReleaseIndex(c, s, j);
    case AtMark(_) => MarkIndex(c, s, j);
    case _ =>
  }

  lemma TransactionSendsReserved(c: Config, s: State, t: State, j: JobId, committed: bool, next: Option<Job>)
    requires Sound(c) && Base(c, s) && Index(c, s) && Live(c, s, j) && TransactionOf(s, t, j, committed, next)
    ensures SendsReserved(c, t)
  {
    CommitFrame(s, j);
    CommitTables(c, s, j);
  }

  /** A run that holds after a step held the same reservation before, or has just reserved. */
  ghost predicate KeepsReservation(c: Config, s: State, prev: Job, next: Job) {
    Holds(next) ==>
      Holds(prev) && next.hash == prev.hash && next.res == prev.res && next.start == prev.start &&
      (next.phase.Spacing? ==> next == prev || s.now + c.spacing <= next.phase.until) &&
      (Attempted(next.phase) ==> Attempted(prev.phase) || (prev.phase.Spacing? && prev.phase.until <= s.now))
  }

  lemma HoldersKept(c: Config, s: State, t: State, j: JobId)
    requires HoldersReserved(c, s) && t.now == s.now && |s.history| <= |t.history|
    requires forall i :: i in t.jobs && i != j ==> i in s.jobs && t.jobs[i] == s.jobs[i]
    requires j in t.jobs && Holds(t.jobs[j]) ==> j in s.jobs && KeepsReservation(c, s, s.jobs[j], t.jobs[j])
    requires forall i :: i in t.jobs && i in s.jobs && Holds(t.jobs[i]) && Reserved(c, s, i, s.jobs[i]) ==>
               t.history[s.jobs[i].res] == s.history[s.jobs[i].res]
    ensures HoldersReserved(c, t)
  {
    forall i | i in t.jobs && Holds(t.jobs[i])
      ensures Reserved(c, t, i, t.jobs[i])
    {
      assert Reserved(c, s, i, s.jobs[i]);
    }
  }

  lemma RaiseHolders(c: Config, s: State, t: State, j: JobId, committed: bool, next: Option<Job>)
    requires Sound(c) && Base(c, s) && Index(c, s) && Live(c, s, j) && TransactionOf(s, t, j, committed, next)
    requires next.Some? ==> !Holds(next.value)
    ensures HoldersReserved(c, t)
  {
    CommitFrame(s, j);
    CommitTables(c, s, j);
    HoldersKept(c, s, t, j);
  }

  lemma ReserveHolders(c: Config, s: State, j: JobId)
    requires HoldersReserved(c, s) && j in s.jobs && s.jobs[j].phase.AtReserve? && s.jobs[j].hash.Some?
    requires s.jobs[j].start <= s.now && s.jobs[j].hash.value !in s.rows
    ensures HoldersReserved(c, AdvanceJob(s, j))
  {
    var u := ReserveTx(s, j, s.jobs[j].hash.value);
    HoldersKept(c, s, u, j);
    var job := s.jobs[j].(res := |s.history|, phase := AwaitLock);
    assert AdvanceJob(s, j) == u.(jobs := s.jobs[j := job]);
  }

  lemma TransactionHolders(c: Config, s: State, j: JobId, m: Move)
    requires Sound(c) && Base(c, s) && Index(c, s) && MoveEnabled(c, s, j, m) && TransactionMove(m)
    ensures HoldersReserved(c, MoveEffect(c, s, j, m))
  {
    var committed, next := TransactionShape(c, s, j, m);
    if next.Some? && Holds(next.value) {
      ReserveHolders(c, s, j);
    } else {
      RaiseHolders(c, s, MoveEffect(c, s, j, m), j, committed, next);
    }
  }

  lemma IndexTransaction(c: Config, s: State, j: JobId, m: Move)
    requires Sound(c) && Base(c, s) && Index(c, s) && MoveEnabled(c, s, j, m) && TransactionMove(m)
    ensures Index(c, MoveEffect(c, s, j, m))
  {
    TransactionHolders(c, s, j, m);
    MoveSendsReserved(c, s, j, m);
    MoveTables(c, s, j, m);
    hide Base;
    hide MoveEffect;
    hide RowsRecorded;
    hide UnreleasedKept;
    hide ReservationsApart;
    hide SendsReserved;
    hide HoldersReserved;
  }

  lemma MoveSendsReserved(c: Config, s: State, j: JobId, m: Move)
    requires Sound(c) && Base(c, s) && Index(c, s) && MoveEnabled(c, s, j, m) && TransactionMove(m)
    ensures SendsReserved(c, MoveEffect(c, s, j, m))
  {
    var committed, next := TransactionShape(c, s, j, m);
    TransactionSendsReserved(c, s, MoveEffect(c, s, j, m), j, committed, next);
    hide MoveEffect;
  }

  lemma MoveTables(c: Config, s: State, j: JobId, m: Move)
    requires Sound(c) && Base(c, s) && Index(c, s) && MoveEnabled(c, s, j, m) && TransactionMove(m)
    ensures var t := MoveEffect(c, s, j, m); RowsRecorded(t) && UnreleasedKept(c, t) && ReservationsApart(c, t.history)
  {
    var t := MoveEffect(c, s, j, m);
    TransactionTables(c, s, j, m);
    CommitShape(s, j);
    CommitTables(c, s, j);
    hide MoveEffect;
    hide Commit;
    hide Base;
    hide RowsRecorded;
    hide UnreleasedKept;
    hide ReservationsApart;
    SameTables(c, if t == s.(jobs := t.jobs) then s else Commit(s, j), t);
  }

  lemma SameTables(c: Config, s: State, t: State)
    requires RowsRecorded(s) && UnreleasedKept(c, s) && ReservationsApart(c, s.history)
    requires t.rows == s.rows && t.history == s.history && t.now == s.now && t.nextJob == s.nextJob
    ensures RowsRecorded(t) && UnreleasedKept(c, t) && ReservationsApart(c, t.history)
  {
  }

  lemma SendOkReserved(c: Config, s: State, j: JobId, id: nat)
    requires Base(c, s) && Index(c, s) && Live(c, s, j) && s.jobs[j].phase.Sending?
    ensures SendsReserved(c, SendOk(s, j, id))
  {
    var t := SendOk(s, j, id);
    assert t.sends[..|s.sends|] == s.sends;
    forall k | 0 <= k < |s.sends| && t.sends[k].hash.Some?
      ensures t.sends[k] == s.sends[k]
    {
    }
  }

  lemma IndexSection(c: Config, s: State, j: JobId, m: Move)
    requires Base(c, s) && Index(c, s) && MoveEnabled(c, s, j, m) && !TransactionMove(m)
    ensures Index(c, MoveEffect(c, s, j, m))
  {
    SectionHolders(c, s, j, m);
    SectionTables(c, s, j, m);
    SectionSendsReserved(c, s, j, m);
    hide Base;
    hide MoveEffect;
    hide HoldersReserved;
    hide SendsReserved;
  }

  lemma SectionHolders(c: Config, s: State, j: JobId, m: Move)
    requires Base(c, s) && Index(c, s) && MoveEnabled(c, s, j, m) && !TransactionMove(m)
    ensures HoldersReserved(c, MoveEffect(c, s, j, m))
  {
    HoldersKept(c, s, MoveEffect(c, s, j, m), j);
    hide HoldersReserved;
  }

  lemma SectionSendsReserved(c: Config, s: State, j: JobId, m: Move)
    requires Base(c, s) && Index(c, s) && MoveEnabled(c, s, j, m) && !TransactionMove(m)
    ensures SendsReserved(c, MoveEffect(c, s, j, m))
  {
    SectionTables(c, s, j, m);
    if m.AttemptOk? { SendOkReserved(c, s, j, m.id); } else { SectionQuiet(c, s, j, m); }
    hide MoveEffect;
  }

  lemma SectionTables(c: Config, s: State, j: JobId, m: Move)
    requires MoveEnabled(c, s, j, m) && !TransactionMove(m)
    ensures var t := MoveEffect(c, s, j, m); t.rows == s.rows && t.history == s.history && t.now == s.now
    ensures MoveEffect(c, s, j, m).nextJob == s.nextJob
    ensures m.AttemptOk? ==> MoveEffect(c, s, j, m) == SendOk(s, j, m.id)
  {
  }

  lemma SectionQuiet(c: Config, s: State, j: JobId, m: Move)
    requires MoveEnabled(c, s, j, m) && !TransactionMove(m) && !m.AttemptOk?
    ensures MoveEffect(c, s, j, m).sends == s.sends
  {
  }

  lemma IndexEvent(c: Config, s: State, e: Event)
    requires Base(c, s) && Index(c, s) && EventEnabled(c, s, e)
    ensures Index(c, EventEffect(c, s, e))
  {
    if e.Start? {
      HoldersKept(c, s, StartJob(s, e.post), s.nextJob);
    } else if e.Prune? {
      PruneIndex(c, s, e.cutoff);
    } else {
      EventFrame(c, s, e);
      IndexOutside(c, s, EventEffect(c, s, e));
    }
  }

  lemma IndexStep(c: Config, s: State, a: Action)
    requires Sound(c) && Base(c, s) && Index(c, s)
    ensures Index(c, Step(c, s, a))
  {
    if Enabled(c, s, a) {
      match a
      case World(e) => IndexEvent(c, s, e);
      case OfRun(j, m) => if TransactionMove(m) { IndexTransaction(c, s, j, m); } else { IndexSection(c, s, j, m); }
    }
  }

  lemma InitHolds(c: Config)
    ensures Base(c, Init()) && Index(c, Init())
  {
  }

  lemma {:induction false} BaseRun(c: Config, s: State, run: seq<Action>)
    requires Base(c, s)
    ensures Base(c, Run(c, s, run))
    decreases |run|
  {
    if run != [] {
      BaseStep(c, s, run[0]);
      BaseRun(c, Step(c, s, run[0]), run[1..]);
    }
  }

  lemma {:induction false} IndexRun(c: Config, s: State, run: seq<Action>)
    requires Sound(c) && Base(c, s) && Index(c, s)
    ensures Base(c, Run(c, s, run)) && Index(c, Run(c, s, run))
    decreases |run|
  {
    if run != [] {
      BaseStep(c, s, run[0]);
      IndexStep(c, s, run[0]);
      IndexRun(c, Step(c, s, run[0]), run[1..]);
    }
  }
}
