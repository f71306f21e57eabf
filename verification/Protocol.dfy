/**
 The publish protocol as a timed transition system: any number of concurrent
 `publish` runs, interleaved transaction by transaction with editors, the normalize
 worker, the dedupe prune, the boot-time reconcile, and crashes.

 Times are milliseconds. An action whose guard is false leaves the state alone, so
 every sequence of actions is a run.
 */
module Protocol {
  import opened Options

  type Hash = string
  type PostId = nat
  type JobId = nat

  const SECOND: int := 1000
  const DAY: int := 86400 * SECOND
  const RECONCILE_BATCH: nat := 100
  const RECONCILE_MAX_AGE: int := 30 * DAY

  /** `lookback` is the dedupe window, `timeout` ARQ's job timeout, `spacing` the pause before a send. */
  datatype Config = Config(lookback: nat, timeout: nat, spacing: nat)

  datatype PostState = Pending | Approved | Scheduled | Published | Rejected | Publishing | PublishFailed

  /** `content` is the key that hashing the raw text and media would give; `hash` is the stored column. */
  datatype Post = Post(state: PostState, content: Hash, hash: Option<Hash>,
                       messageId: Option<nat>, scheduledFor: Option<int>)

  datatype Row = Row(id: nat, at: int)

  /** One entry of the history that is never pruned; `Row.id` is its index. */
  datatype Reservation = Reservation(hash: Hash, job: JobId, at: int, released: bool)

  /**
   Where a publish run stands: each `At` phase is one database transaction still to be
   done. The gate's transaction reads at `AtGate` and writes at `AtClaim`; other runs may
   read in between.
   */
  datatype Phase =
    | AtGate | AtClaim | AtCheck | AtReserve | AtMarkDuplicate
    | AwaitLock | Spacing(until: int) | Sending(retry: bool) | Backoff(until: int)
    | AtRelease | AtMark(id: nat) | AtCard | AtFailure

  datatype Job = Job(post: PostId, start: int, hash: Option<Hash>, res: nat, phase: Phase)

  /** A `_send_post` call that returned an id. */
  datatype Send = Send(job: JobId, post: PostId, hash: Option<Hash>, res: nat, id: nat, at: int)

  /** Any `_send_post` call; `wait` is the RetryAfter it failed with, in seconds. */
  datatype Attempt = Attempt(job: JobId, retry: bool, start: int, end: Option<int>, wait: Option<nat>)

  datatype State = State(
    now: int,
    posts: map<PostId, Post>, nextPost: PostId,
    rows: map<Hash, Row>, history: seq<Reservation>,
    jobs: map<JobId, Job>, nextJob: JobId,
    lock: Option<JobId>,
    loaded: multiset<(PostId, Hash, Option<bool>)>, // normalize runs that have read, with their duplicate verdict
    owed: multiset<PostId>,            // enqueue calls due after a commit
    queue: multiset<PostId>,           // publish jobs ARQ may run, any number of times each
    sends: seq<Send>, attempts: seq<Attempt>)

  /** Steps of everyone but the publish runs; `Start` is ARQ beginning a run. */
  datatype Event =
    | Tick(elapsed: nat)
    | Ingest(content: Hash) | StoreMedia(post: PostId, content: Hash) | RemovePost(post: PostId)
    | NormalizeLoad(post: PostId) | NormalizeCheck(post: PostId, content: Hash)
    | NormalizeCommit(post: PostId, content: Hash, duplicate: bool, auto: bool)
    | Approve(post: PostId, inline: bool) | Schedule(post: PostId, at: int) | Reject(post: PostId)
    | Reconcile(batch: seq<PostId>) | Prune(cutoff: int)
    | Enqueue(post: PostId) | Start(post: PostId)

  /**
   Steps of one publish run. Claiming a post deleted meanwhile can only raise. `Crash`
   stands for a timeout, a cancellation or a killed process.
   */
  datatype Move =
    | Advance | NoChannel | Raise(committed: bool)
    | AcquireLock | BeginAttempt | AttemptOk(id: nat) | AttemptRetryAfter(seconds: nat) | AttemptFails
    | Crash

  datatype Action = World(event: Event) | OfRun(job: JobId, move: Move)

  function Init(): State {
    State(0, map[], 0, map[], [], map[], 0, None, multiset{}, multiset{}, multiset{}, [], [])
  }

  // ---- Transactions on the post and dedupe tables ----

  function SetPost(s: State, p: PostId, post: Post): State {
    s.(posts := s.posts[p := post])
  }

  predicate GatePasses(s: State, p: PostId) {
    p in s.posts && s.posts[p].messageId.None? &&
    !s.posts[p].state.Rejected? && !s.posts[p].state.Published? && !s.posts[p].state.Publishing?
  }

  function ClaimTx(s: State, p: PostId): State {
    if p in s.posts then SetPost(s, p, s.posts[p].(state := Publishing)) else s
  }

  function ReserveTx(s: State, j: JobId, h: Hash): State {
    if h in s.rows then s
    else s.(rows := s.rows[h := Row(|s.history|, s.now)],
            history := s.history + [Reservation(h, j, s.now, false)])
  }

  /** The delete names the hash only; the history notes which reservation the caller meant. */
  function ReleaseTx(s: State, hash: Option<Hash>, res: nat): State {
    if hash.None? then s
    else s.(rows := s.rows - {hash.value},
            history := if res < |s.history| then s.history[res := s.history[res].(released := true)] else s.history)
  }

  function MarkDuplicateTx(s: State, p: PostId): State {
    if p in s.posts then SetPost(s, p, s.posts[p].(state := Rejected)) else s
  }

  function MarkPublishedTx(s: State, j: JobId, p: PostId, id: nat, hash: Option<Hash>): State {
    if p !in s.posts then s
    else
      var marked := SetPost(s, p, s.posts[p].(state := Published, messageId := Some(id)));
      if hash.None? then marked else ReserveTx(marked, j, hash.value)
  }

  function FailureTx(s: State, p: PostId): State {
    if p in s.posts then SetPost(s, p, s.posts[p].(state := PublishFailed)) else s
  }

  // ---- One publish run ----

  predicate Live(c: Config, s: State, j: JobId) {
    j in s.jobs && s.now <= s.jobs[j].start + c.timeout
  }

  function Finish(s: State, j: JobId): State {
    s.(jobs := s.jobs - {j})
  }

  function SetJob(s: State, j: JobId, job: Job): State {
    s.(jobs := s.jobs[j := job])
  }

  function GoTo(s: State, j: JobId, phase: Phase): State
    requires j in s.jobs
  {
    SetJob(s, j, s.jobs[j].(phase := phase))
  }

  predicate InTransaction(phase: Phase) {
    !phase.AwaitLock? && !phase.Spacing? && !phase.Sending? && !phase.Backoff?
  }

  /** What the current phase's transaction commits, leaving the run where it is. */
  function Commit(s: State, j: JobId): State
    requires j in s.jobs
    ensures Commit(s, j).jobs == s.jobs
  {
    var job := s.jobs[j];
    match job.phase
    case AtClaim => ClaimTx(s, job.post)
    case AtReserve => if job.hash.Some? then ReserveTx(s, j, job.hash.value) else s
    case AtMarkDuplicate => MarkDuplicateTx(s, job.post)
    case AtRelease => ReleaseTx(s, job.hash, job.res)
    case AtMark(id) => MarkPublishedTx(s, j, job.post, id, job.hash)
    case AtFailure => FailureTx(s, job.post)
    case _ => s
  }

  /** Where the run goes once the transaction has committed; `None` when it returns. */
  function Successor(s: State, j: JobId): Option<Job>
    requires j in s.jobs
  {
    var job := s.jobs[j];
    match job.phase
    case AtGate =>
      if !GatePasses(s, job.post) then None
      else Some(job.(hash := s.posts[job.post].hash, phase := AtClaim))
    case AtClaim => Some(job.(phase := if job.hash.Some? then AtCheck else AwaitLock))
    case AtCheck =>
      Some(job.(phase := if job.hash.Some? && job.hash.value in s.rows then AtMarkDuplicate else AtReserve))
    case AtReserve =>
      if job.hash.Some? && job.hash.value in s.rows then Some(job.(phase := AtMarkDuplicate))
      else Some(job.(res := |s.history|, phase := AwaitLock))
    case AtRelease => Some(job.(phase := AtFailure))
    case AtMark(_) => Some(job.(phase := AtCard))
    case _ => None
  }

  function AdvanceJob(s: State, j: JobId): State
    requires j in s.jobs
  {
    match Successor(s, j)
    case None => Finish(Commit(s, j), j)
    case Some(job) => SetJob(Commit(s, j), j, job)
  }

  /** An exception in a transaction, before or after it took effect, reaches the failure handler. */
  function RaiseJob(s: State, j: JobId, committed: bool): State
    requires j in s.jobs
  {
    var t := if committed then Commit(s, j) else s;
    if s.jobs[j].phase.AtFailure? then Finish(t, j) else GoTo(t, j, AtFailure)
  }

  function Closed(attempts: seq<Attempt>, now: int, wait: Option<nat>): seq<Attempt> {
    if attempts == [] then []
    else
      var k := |attempts| - 1;
      attempts[k := attempts[k].(end := Some(now), wait := wait)]
  }

  /** The attempt is over and the run leaves the critical section. */
  function EndSection(s: State, j: JobId, phase: Phase): State
    requires j in s.jobs
  {
    GoTo(s, j, phase).(lock := None, attempts := Closed(s.attempts, s.now, None))
  }

  function StartJob(s: State, p: PostId): State {
    SetJob(s, s.nextJob, Job(p, s.now, None, 0, AtGate)).(nextJob := s.nextJob + 1)
  }

  function Acquire(c: Config, s: State, j: JobId): State
    requires j in s.jobs
  {
    GoTo(s, j, Spacing(s.now + c.spacing)).(lock := Some(j))
  }

  function Begin(s: State, j: JobId): State
    requires j in s.jobs
  {
    var retry := s.jobs[j].phase.Backoff?;
    GoTo(s, j, Sending(retry)).(attempts := s.attempts + [Attempt(j, retry, s.now, None, None)])
  }

  function SendOk(s: State, j: JobId, id: nat): State
    requires j in s.jobs
  {
    var job := s.jobs[j];
    EndSection(s, j, AtMark(id)).(sends := s.sends + [Send(j, job.post, job.hash, job.res, id, s.now)])
  }

  function RetryAfter(s: State, j: JobId, seconds: nat): State
    requires j in s.jobs
  {
    GoTo(s, j, Backoff(s.now + (seconds + 1) * SECOND)).(attempts := Closed(s.attempts, s.now, Some(seconds)))
  }

  function CrashJob(s: State, j: JobId): State
    requires j in s.jobs
  {
    Finish(s, j).(lock := if s.lock == Some(j) then None else s.lock,
                  attempts := if s.jobs[j].phase.Sending? then Closed(s.attempts, s.now, None) else s.attempts)
  }

  // ---- Normalize, prune, reconcile ----

  predicate IsDuplicate(c: Config, s: State, h: Hash) {
    h in s.rows && s.rows[h].at >= s.now - c.lookback
  }

  function CheckTx(c: Config, s: State, p: PostId, content: Hash): State {
    s.(loaded := s.loaded - multiset{(p, content, None)} + multiset{(p, content, Some(IsDuplicate(c, s, content)))})
  }

  function NormalizeTx(s: State, p: PostId, content: Hash, duplicate: bool, auto: bool): State {
    var t := s.(loaded := s.loaded - multiset{(p, content, Some(duplicate))});
    if p !in s.posts then t
    else if duplicate then
      SetPost(t, p, s.posts[p].(hash := Some(content), state := Rejected))
    else
      SetPost(t, p, s.posts[p].(hash := Some(content)))
      .(owed := if auto then s.owed + multiset{p} else s.owed)
  }

  function ApproveTx(s: State, p: PostId, inline: bool): State
    requires p in s.posts
  {
    SetPost(s, p, s.posts[p].(state := Approved,
                              scheduledFor := if inline then s.posts[p].scheduledFor else None))
    .(owed := s.owed + multiset{p})
  }

  function ScheduleTx(s: State, p: PostId, at: int): State
    requires p in s.posts
  {
    SetPost(s, p, s.posts[p].(state := Scheduled, scheduledFor := Some(at)))
    .(owed := s.owed + multiset{p})
  }

  function PruneTx(s: State, cutoff: int): State {
    s.(rows := map h | h in s.rows && s.rows[h].at >= cutoff :: s.rows[h])
  }

  predicate Overdue(s: State, p: PostId) {
    p in s.posts && s.posts[p].state.Scheduled? && s.posts[p].messageId.None? && s.posts[p].scheduledFor.Some? &&
    s.now - RECONCILE_MAX_AGE <= s.posts[p].scheduledFor.value <= s.now
  }

  /** A possible answer of the reconcile query: overdue posts, oldest first, at most one batch. */
  predicate OverdueBatch(s: State, batch: seq<PostId>) {
    |batch| <= RECONCILE_BATCH &&
    (forall i :: 0 <= i < |batch| ==> Overdue(s, batch[i])) &&
    (forall i, k :: 0 <= i < k < |batch| ==>
      batch[i] != batch[k] && s.posts[batch[i]].scheduledFor.value <= s.posts[batch[k]].scheduledFor.value) &&
    (forall p :: p in s.posts && Overdue(s, p) && p !in batch ==>
      |batch| == RECONCILE_BATCH &&
      forall i :: 0 <= i < |batch| ==> s.posts[batch[i]].scheduledFor.value <= s.posts[p].scheduledFor.value)
  }

  // ---- The step relation ----

  predicate EventEnabled(c: Config, s: State, e: Event) {
    match e
    case Tick(_) => true
    case Ingest(_) => true
    case StoreMedia(p, _) => p in s.posts
    case RemovePost(p) => p in s.posts
    case NormalizeLoad(p) => p in s.posts && !s.posts[p].state.Published? && !s.posts[p].state.Rejected?
    case NormalizeCheck(p, content) => (p, content, None) in s.loaded
    case NormalizeCommit(p, content, duplicate, _) => (p, content, Some(duplicate)) in s.loaded
    case Approve(p, _) => p in s.posts
    case Schedule(p, at) => p in s.posts && at > s.now
    case Reject(p) => p in s.posts
    case Reconcile(batch) => OverdueBatch(s, batch)
    case Prune(cutoff) => cutoff <= s.now - c.lookback
    case Enqueue(p) => p in s.owed
    case Start(p) => p in s.queue
  }

  function EventEffect(c: Config, s: State, e: Event): State
    requires EventEnabled(c, s, e)
  {
    match e
    case Tick(d) => s.(now := s.now + d)
    case Ingest(content) =>
      SetPost(s, s.nextPost, Post(Pending, content, None, None, None)).(nextPost := s.nextPost + 1)
    case StoreMedia(p, content) => SetPost(s, p, s.posts[p].(content := content))
    case RemovePost(p) => s.(posts := s.posts - {p})
    case NormalizeLoad(p) => s.(loaded := s.loaded + multiset{(p, s.posts[p].content, None)})
    case NormalizeCheck(p, content) => CheckTx(c, s, p, content)
    case NormalizeCommit(p, content, duplicate, auto) => NormalizeTx(s, p, content, duplicate, auto)
    case Approve(p, inline) => ApproveTx(s, p, inline)
    case Schedule(p, at) => ScheduleTx(s, p, at)
    case Reject(p) => SetPost(s, p, s.posts[p].(state := Rejected))
    case Reconcile(batch) => s.(owed := s.owed + multiset(batch))
    case Prune(cutoff) => PruneTx(s, cutoff)
    case Enqueue(p) => s.(owed := s.owed - multiset{p}, queue := s.queue + multiset{p})
    case Start(p) => StartJob(s, p)
  }

  predicate MoveEnabled(c: Config, s: State, j: JobId, m: Move) {
    j in s.jobs &&
    (m.Crash? || s.now <= s.jobs[j].start + c.timeout) &&
    var phase := s.jobs[j].phase;
    match m
    case Advance => InTransaction(phase) && (phase.AtClaim? ==> s.jobs[j].post in s.posts)
    case NoChannel => phase.AtClaim? && s.jobs[j].post in s.posts
    case Raise(_) => InTransaction(phase)
    case AcquireLock => phase.AwaitLock? && s.lock.None?
    case BeginAttempt => (phase.Spacing? || phase.Backoff?) && s.now >= phase.until
    case AttemptOk(id) => phase.Sending? && id != 0
    case AttemptRetryAfter(_) => phase == Sending(false)
    case AttemptFails => phase.Sending?
    case Crash => true
  }

  function MoveEffect(c: Config, s: State, j: JobId, m: Move): State
    requires MoveEnabled(c, s, j, m)
  {
    match m
    case Advance => AdvanceJob(s, j)
    case NoChannel => Finish(Commit(s, j), j)
    case Raise(committed) => RaiseJob(s, j, committed)
    case AcquireLock => Acquire(c, s, j)
    case BeginAttempt => Begin(s, j)
    case AttemptOk(id) => SendOk(s, j, id)
    case AttemptRetryAfter(seconds) => RetryAfter(s, j, seconds)
    case AttemptFails => EndSection(s, j, AtRelease)
    case Crash => CrashJob(s, j)
  }

  predicate Enabled(c: Config, s: State, a: Action) {
    match a
    case World(e) => EventEnabled(c, s, e)
    case OfRun(j, m) => MoveEnabled(c, s, j, m)
  }

  function Effect(c: Config, s: State, a: Action): State
    requires Enabled(c, s, a)
  {
    match a
    case World(e) => EventEffect(c, s, e)
    case OfRun(j, m) => MoveEffect(c, s, j, m)
  }

  function Step(c: Config, s: State, a: Action): State {
    if Enabled(c, s, a) then Effect(c, s, a) else s
  }

  function Run(c: Config, s: State, run: seq<Action>): State
    decreases |run|
  {
    if run == [] then s else Run(c, Step(c, s, run[0]), run[1..])
  }

  lemma {:induction false} RunConcat(c: Config, s: State, first: seq<Action>, second: seq<Action>)
    ensures Run(c, s, first + second) == Run(c, Run(c, s, first), second)
    decreases |first|
  {
    if first == [] {
      assert first + second == second;
    } else {
      assert (first + second)[1..] == first[1..] + second;
      RunConcat(c, Step(c, s, first[0]), first[1..], second);
    }
  }

  lemma RunThen(c: Config, s: State, run: seq<Action>, a: Action)
    ensures Run(c, s, run + [a]) == Step(c, Run(c, s, run), a)
  {
    RunConcat(c, s, run, [a]);
    assert Run(c, Run(c, s, run), [a]) == Run(c, Step(c, Run(c, s, run), a), [a][1..]);
  }
}
