/**
 The services as programs over one database: the `publish` job, the editors' handlers,
 the normalize worker, the prune and the reconcile. Every method is one transaction (or
 one await) and is proved to be the corresponding step of the protocol; the `publish`
 job, suspended between its transactions while everyone else runs, is proved to be a
 run of the protocol whatever they do.
 */
module PublishService {
  import opened Options
  import opened Protocol
  import opened ProtocolInvariants
  import opened ProtocolFrames
  import opened ProtocolTheorems
  import opened ProtocolWriteOnce

  datatype Outcome =
    | NotFound | AlreadyPublished | Skipped(state: PostState) | ChannelMissing | Duplicate
    | Delivered(id: nat) | Raised | Cancelled

  datatype Reply = Updated | PostNotFound | ChannelNotFound | BadRequest

  datatype Telegram = Returned(id: nat) | FloodWait(seconds: nat) | Refused

  /** What happens around one run: others' actions, exceptions and Telegram's answers at each await. */
  datatype Surroundings = Surroundings(
    others: nat -> seq<Action>, raises: nat -> Option<bool>, channel: bool, first: Telegram, second: Telegram)

  /** The id Telegram accepted the post under, after at most one RetryAfter; 0 when it did not. */
  function AcceptedId(e: Surroundings): nat {
    if e.first.Returned? then e.first.id
    else if e.first.FloodWait? && e.second.Returned? then e.second.id
    else 0
  }

  predicate Removes(others: seq<Action>) {
    exists i :: 0 <= i < |others| && others[i].World? && others[i].event.RemovePost?
  }

  /** Some transaction raises, or some post is deleted meanwhile. */
  ghost predicate SomethingRaises(e: Surroundings) {
    exists k :: e.raises(k).Some? || Removes(e.others(k))
  }

  lemma Raises(e: Surroundings, k: nat)
    ensures e.raises(k).Some? || Removes(e.others(k)) ==> SomethingRaises(e)
  {
  }

  /** What must have happened for a run begun at `start` to end this way at `now`. */
  ghost predicate Explained(c: Config, e: Surroundings, start: int, now: int, outcome: Outcome) {
    match outcome
    case Cancelled => start + c.timeout < now
    case Raised => SomethingRaises(e) || AcceptedId(e) == 0
    case Delivered(id) => id == AcceptedId(e) && id != 0
    case ChannelMissing => !e.channel
    case _ => true
  }

  function SendsBy(sends: seq<Send>, j: JobId): seq<Send> {
    if sends == [] then []
    else
      var k := |sends| - 1;
      SendsBy(sends[..k], j) + (if sends[k].job == j then [sends[k]] else [])
  }

  lemma {:induction false} SendsByNone(sends: seq<Send>, j: JobId)
    requires forall k :: 0 <= k < |sends| ==> sends[k].job != j
    ensures SendsBy(sends, j) == []
  {
    if sends != [] { SendsByNone(sends[..|sends| - 1], j); }
  }

  /** Posts go only when they are deleted. */
  lemma PostsKept(c: Config, s: State, a: Action)
    ensures (a.World? && a.event.RemovePost?) || s.posts.Keys <= Step(c, s, a).posts.Keys
  {
    if Enabled(c, s, a) {
      match a
      case World(e) => if !e.RemovePost? { EventPostsKept(c, s, e); }
      case OfRun(j, m) => MoveFrame(c, s, j, m);
    }
    hide EventEffect;
    hide MoveEffect;
  }

  lemma EventPostsKept(c: Config, s: State, e: Event)
    requires EventEnabled(c, s, e) && !e.RemovePost?
    ensures s.posts.Keys <= EventEffect(c, s, e).posts.Keys
  {
    if e.NormalizeCommit? { NormalizeShape(s, e.post, e.content, e.duplicate, e.auto); }
    hide NormalizeTx;
  }

  predicate Foreign(a: Action, j: JobId) {
    a.World? || a.job != j
  }

  /** Nobody else moves a run, ends it, or sends in its name. */
  lemma ForeignStep(c: Config, s: State, a: Action, j: JobId)
    requires Base(c, s) && j in s.jobs && Foreign(a, j)
    ensures var t := Step(c, s, a);
            Base(c, t) && j in t.jobs && t.jobs[j] == s.jobs[j] && SendsBy(t.sends, j) == SendsBy(s.sends, j)
  {
    BaseStep(c, s, a);
    hide Base;
    if Enabled(c, s, a) {
      match a
      case World(e) => ForeignEvent(c, s, e, j);
      case OfRun(i, m) =>
        ForeignMove(c, s, i, m, j);
        ForeignSends(c, s, i, m, j);
    }
    hide EventEffect;
    hide MoveEffect;
    hide SendsBy;
  }

  lemma ForeignEvent(c: Config, s: State, e: Event, j: JobId)
    requires EventEnabled(c, s, e) && j in s.jobs && j < s.nextJob && (forall p :: p in s.posts ==> p < s.nextPost)
    ensures var t := EventEffect(c, s, e); j in t.jobs && t.jobs[j] == s.jobs[j] && t.sends == s.sends
  {
    if !e.Start? {
      EventFrame(c, s, e);
      hide EventEffect;
    }
  }

  lemma ForeignMove(c: Config, s: State, i: JobId, m: Move, j: JobId)
    requires MoveEnabled(c, s, i, m) && j in s.jobs && i != j
    ensures var t := MoveEffect(c, s, i, m); j in t.jobs && t.jobs[j] == s.jobs[j]
  {
    if TransactionMove(m) { CommitFrame(s, i); }
  }

  lemma ForeignSends(c: Config, s: State, i: JobId, m: Move, j: JobId)
    requires MoveEnabled(c, s, i, m) && i != j
    ensures SendsBy(MoveEffect(c, s, i, m).sends, j) == SendsBy(s.sends, j)
  {
    if m.AttemptOk? {
      assert SendOk(s, i, m.id).sends[..|s.sends|] == s.sends;
    } else {
      MoveFrame(c, s, i, m);
      hide MoveEffect;
    }
  }

  predicate Looks(phase: Phase) {
    phase.AtCheck? || phase.AtReserve?
  }

  /** The run looks for its hash here, or inserts it, and there is a row already. */
  predicate Finds(s: State, a: Action, j: JobId) {
    a == OfRun(j, Advance) && j in s.jobs && Looks(s.jobs[j].phase) &&
    s.jobs[j].hash.Some? && s.jobs[j].hash.value in s.rows
  }

  ghost predicate FindsAt(c: Config, from: State, trace: seq<Action>, n: nat, j: JobId) {
    n < |trace| && Finds(Run(c, from, trace[..n]), trace[n], j)
  }

  /** At some action of the trace the run's hash had a row when the run looked. */
  ghost predicate FoundTaken(c: Config, from: State, trace: seq<Action>, j: JobId) {
    exists n: nat :: FindsAt(c, from, trace, n, j)
  }

  lemma FoundLater(c: Config, from: State, trace: seq<Action>, longer: seq<Action>, j: JobId)
    requires FoundTaken(c, from, trace, j) && trace <= longer
    ensures FoundTaken(c, from, longer, j)
  {
    var n: nat :| FindsAt(c, from, trace, n, j);
    assert longer[..n] == trace[..n];
    assert FindsAt(c, from, longer, n, j);
  }

  // ---- What decides a run's moves, and how long it takes ----

  /** The await at which the transaction of this phase is done. */
  function AwaitOf(phase: Phase): nat {
    match phase
    case AtGate => 0
    case AtClaim => 12
    case AtCheck => 1
    case AtReserve => 2
    case AtMarkDuplicate => 3
    case AtCard => 10
    case AtFailure => 11
    case _ => 9
  }

  function AnswerTo(e: Surroundings, phase: Phase): Telegram {
    if phase == Sending(true) then e.second else e.first
  }

  /** The move is the one the surroundings leave the run at this point. */
  predicate Dictated(c: Config, e: Surroundings, s: State, j: JobId, m: Move) {
    j in s.jobs &&
    var phase := s.jobs[j].phase;
    match m
    case Advance => e.raises(AwaitOf(phase)).None? && (phase.AtClaim? ==> e.channel)
    case NoChannel => e.raises(AwaitOf(phase)).None? && !e.channel
    case Raise(committed) =>
      e.raises(AwaitOf(phase)) == Some(committed) ||
      (phase.AtClaim? && s.jobs[j].post !in s.posts && committed == e.raises(12).UnwrapOr(false))
    case AttemptOk(id) => AnswerTo(e, phase) == Returned(id)
    case AttemptRetryAfter(seconds) => phase == Sending(false) && e.first == FloodWait(seconds)
    case AttemptFails =>
      !(AnswerTo(e, phase).Returned? && AnswerTo(e, phase).id != 0) && !(phase == Sending(false) && e.first.FloodWait?)
    case Crash => s.now > s.jobs[j].start + c.timeout
    case _ => true
  }

  ghost predicate DictatedAt(c: Config, e: Surroundings, from: State, trace: seq<Action>, j: JobId, n: nat) {
    n < |trace| && !Foreign(trace[n], j) ==> Dictated(c, e, Run(c, from, trace[..n]), j, trace[n].move)
  }

  /** Every move of run `j` in the trace is dictated by its surroundings. */
  ghost predicate Scripted(c: Config, e: Surroundings, from: State, trace: seq<Action>, j: JobId) {
    forall n: nat :: DictatedAt(c, e, from, trace, j, n)
  }

  lemma ScriptedNext(c: Config, e: Surroundings, from: State, trace: seq<Action>, j: JobId, a: Action)
    requires Scripted(c, e, from, trace, j)
    requires !Foreign(a, j) ==> Dictated(c, e, Run(c, from, trace), j, a.move)
    ensures Scripted(c, e, from, trace + [a], j)
  {
    forall n: nat
      ensures DictatedAt(c, e, from, trace + [a], j, n)
    {
      assert DictatedAt(c, e, from, trace, j, n);
      if n < |trace| {
        assert (trace + [a])[..n] == trace[..n];
      } else if n == |trace| {
        assert (trace + [a])[..n] == trace;
      }
    }
    hide Dictated;
  }

  function Elapsed(others: seq<Action>): nat {
    if others == [] then 0
    else
      var last := others[|others| - 1];
      Elapsed(others[..|others| - 1]) +
      if last.World? && last.event.Tick? then last.event.elapsed else 0
  }

  lemma ElapsedNext(others: seq<Action>, i: nat)
    requires i < |others|
    ensures Elapsed(others[..i + 1])
         == Elapsed(others[..i]) + if others[i].World? && others[i].event.Tick? then others[i].event.elapsed else 0
  {
    assert others[..i + 1][..i] == others[..i];
  }

  lemma StepTime(c: Config, s: State, a: Action)
    ensures Step(c, s, a).now == s.now + if a.World? && a.event.Tick? then a.event.elapsed else 0
  {
    if Enabled(c, s, a) {
      match a
      case World(e) => EventTime(c, s, e);
      case OfRun(j, m) => MoveFrame(c, s, j, m);
    }
    hide EventEffect;
    hide MoveEffect;
  }

  lemma EventTime(c: Config, s: State, e: Event)
    requires EventEnabled(c, s, e)
    ensures EventEffect(c, s, e).now == s.now + if e.Tick? then e.elapsed else 0
  {
    hide OverdueBatch;
  }

  /** The RetryAfter the run has to wait out, in milliseconds. */
  function Pause(e: Surroundings): nat {
    if e.first.FloodWait? then (e.first.seconds + 1) * 1000 else 0
  }

  /** Everything that can delay a run that finds the lock free. */
  function Delay(c: Config, e: Surroundings): nat {
    GateDelay(e) + CheckDelay(e) + TurnDelay(c, e) + SendDelay(e) + Elapsed(e.others(9)) + Elapsed(e.others(10)) +
    Elapsed(e.others(11))
  }

  function GateDelay(e: Surroundings): nat {
    Elapsed(e.others(0)) + Elapsed(e.others(12))
  }

  function CheckDelay(e: Surroundings): nat {
    Elapsed(e.others(1)) + Elapsed(e.others(2)) + Elapsed(e.others(3))
  }

  function TurnDelay(c: Config, e: Surroundings): nat {
    Elapsed(e.others(4)) + c.spacing + Elapsed(e.others(5))
  }

  function SendDelay(e: Surroundings): nat {
    Elapsed(e.others(6)) + Pause(e) + Elapsed(e.others(7)) + Elapsed(e.others(8))
  }

  predicate Blocked(s: State, j: JobId) {
    j in s.jobs && s.jobs[j].phase.AwaitLock? && s.lock.Some?
  }

  ghost predicate BlockedAt(c: Config, from: State, trace: seq<Action>, n: nat, j: JobId) {
    n <= |trace| && Blocked(Run(c, from, trace[..n]), j)
  }

  /** At some point of the trace the run waited for a lock that another run held. */
  ghost predicate FoundLocked(c: Config, from: State, trace: seq<Action>, j: JobId) {
    exists n: nat :: BlockedAt(c, from, trace, n, j)
  }

  lemma LockedLater(c: Config, from: State, trace: seq<Action>, longer: seq<Action>, j: JobId)
    requires FoundLocked(c, from, trace, j) && trace <= longer
    ensures FoundLocked(c, from, longer, j)
  {
    var n: nat :| BlockedAt(c, from, trace, n, j);
    assert longer[..n] == trace[..n];
    assert BlockedAt(c, from, longer, n, j);
  }

  lemma LockedHere(c: Config, from: State, trace: seq<Action>, j: JobId)
    requires Blocked(Run(c, from, trace), j)
    ensures FoundLocked(c, from, trace, j)
  {
    assert trace[..|trace|] == trace;
    assert BlockedAt(c, from, trace, |trace|, j);
  }

  class Cms {
    var now: int
    var posts: map<PostId, Post>
    var nextPost: PostId
    var rows: map<Hash, Row>
    var history: seq<Reservation>
    var jobs: map<JobId, Job>
    var nextJob: JobId
    var lock: Option<JobId>
    var loaded: multiset<(PostId, Hash, Option<bool>)>
    var owed: multiset<PostId>
    var queue: multiset<PostId>
    var sends: seq<Send>
    var attempts: seq<Attempt>

    function View(): State
      reads this
    {
      State(now, posts, nextPost, rows, history, jobs, nextJob, lock, loaded, owed, queue, sends, attempts)
    }

    constructor ()
      ensures View() == Init()
    {
      now, posts, nextPost, rows, history := 0, map[], 0, map[], [];
      jobs, nextJob, lock := map[], 0, None;
      loaded, owed, queue := multiset{}, multiset{}, multiset{};
      sends, attempts := [], [];
    }

    // ---- Statements on the tables ----

    method SetState(p: PostId, state: PostState)
      modifies this`posts
      ensures View() == if p in old(posts) then SetPost(old(View()), p, old(posts[p]).(state := state)) else old(View())
    {
      if p in posts {
        posts := posts[p := posts[p].(state := state)];
      }
    }

    method InsertDedupe(j: JobId, h: Hash) returns (inserted: bool)
      modifies this`rows, this`history
      ensures View() == ReserveTx(old(View()), j, h)
      ensures inserted <==> h !in old(rows)
    {
      inserted := h !in rows;
      if inserted {
        rows := rows[h := Row(|history|, now)];
        history := history + [Reservation(h, j, now, false)];
      }
    }

    method DeleteDedupe(hash: Option<Hash>, res: nat)
      modifies this`rows, this`history
      ensures View() == ReleaseTx(old(View()), hash, res)
    {
      if hash.Some? {
        rows := rows - {hash.value};
        if res < |history| {
          history := history[res := history[res].(released := true)];
        }
      }
    }

    method StorePublished(j: JobId, p: PostId, id: nat, hash: Option<Hash>)
      modifies this`posts, this`rows, this`history
      ensures View() == MarkPublishedTx(old(View()), j, p, id, hash)
    {
      if p in posts {
        posts := posts[p := posts[p].(state := Published, messageId := Some(id))];
        if hash.Some? {
          var _ := InsertDedupe(j, hash.value);
        }
      }
    }

    // ---- The editors ----

    /** Go's `decide`; the enqueue it owes follows as a step of its own. */
    method Decide(action: string, p: PostId, scheduledFor: Option<int>) returns (reply: Reply)
      modifies this`posts, this`owed
      ensures p !in old(posts) ==> reply == PostNotFound
      ensures p in old(posts) ==>
                (reply == Updated <==>
                   action == "approve" || action == "reject" ||
                   (action == "schedule" && scheduledFor.Some? && scheduledFor.value > now)) &&
                (reply == BadRequest <==> reply != Updated)
      ensures reply == Updated && action == "approve" ==> View() == ApproveTx(old(View()), p, false)
      ensures reply == Updated && action == "schedule" ==> View() == ScheduleTx(old(View()), p, scheduledFor.value)
      ensures reply == Updated && action == "reject" ==>
                View() == SetPost(old(View()), p, old(posts[p]).(state := Rejected))
      ensures reply != Updated ==> View() == old(View())
    {
      if p !in posts {
        return PostNotFound;
      }
      if action == "approve" {
        posts := posts[p := posts[p].(state := Approved, scheduledFor := None)];
        owed := owed + multiset{p};
        reply := Updated;
      } else if action == "schedule" {
        if scheduledFor.None? || scheduledFor.value <= now {
          return BadRequest;
        }
        posts := posts[p := posts[p].(state := Scheduled, scheduledFor := scheduledFor)];
        owed := owed + multiset{p};
        reply := Updated;
      } else if action == "reject" {
        posts := posts[p := posts[p].(state := Rejected)];
        reply := Updated;
      } else {
        reply := BadRequest;
      }
    }

    /** The bot's inline approve: a missing post or channel is answered; `scheduled_for` is left alone. */
    method CbApprove(p: PostId, channel: bool) returns (reply: Reply)
      modifies this`posts, this`owed
      ensures reply == if p !in old(posts) then PostNotFound else if !channel then ChannelNotFound else Updated
      ensures View() == if reply.Updated? then ApproveTx(old(View()), p, true) else old(View())
    {
      if p !in posts {
        return PostNotFound;
      }
      if !channel {
        return ChannelNotFound;
      }
      posts := posts[p := posts[p].(state := Approved)];
      owed := owed + multiset{p};
      return Updated;
    }

    /** The inline reject. */
    method CbReject(p: PostId, channel: bool) returns (reply: Reply)
      modifies this`posts
      ensures reply == if p !in old(posts) then PostNotFound else if !channel then ChannelNotFound else Updated
      ensures View()
           == if reply.Updated? then SetPost(old(View()), p, old(posts[p]).(state := Rejected)) else old(View())
    {
      if p !in posts {
        return PostNotFound;
      }
      if !channel {
        return ChannelNotFound;
      }
      posts := posts[p := posts[p].(state := Rejected)];
      return Updated;
    }

    // ---- The worker ----

    method LookUpDuplicate(c: Config, h: Hash) returns (found: bool)
      ensures found <==> IsDuplicate(c, View(), h)
    {
      found := h in rows && rows[h].at >= now - c.lookback;
    }

    method StoreHash(p: PostId, content: Hash, reject: bool)
      requires p in posts
      modifies this`posts
      ensures var post := old(posts[p]);
              var state := if reject then Rejected else post.state;
              View() == SetPost(old(View()), p, post.(hash := Some(content), state := state))
    {
      posts := posts[p := posts[p].(hash := Some(content), state := if reject then Rejected else posts[p].state)];
    }

    /** `normalize` asks whether the hash is a duplicate; others may act before it commits. */
    method NormalizeCheck(c: Config, p: PostId, content: Hash)
      modifies this`loaded
      ensures View() == CheckTx(c, old(View()), p, content)
    {
      var duplicate := LookUpDuplicate(c, content);
      loaded := loaded - multiset{(p, content, None)} + multiset{(p, content, Some(duplicate))};
    }

    /** The end of `normalize`: store the hash, then reject or route. */
    method NormalizeCommit(p: PostId, content: Hash, duplicate: bool, auto: bool)
      modifies this`posts, this`loaded, this`owed
      ensures View() == NormalizeTx(old(View()), p, content, duplicate, auto)
    {
      loaded := loaded - multiset{(p, content, Some(duplicate))};
      if p in posts {
        StoreHash(p, content, duplicate);
        if !duplicate && auto {
          owed := owed + multiset{p};
        }
      }
    }

    method PruneDedupeRows(cutoff: int) returns (removed: nat)
      modifies this`rows
      ensures View() == PruneTx(old(View()), cutoff)
      ensures removed == |set h | h in old(rows) && old(rows)[h].at < cutoff|
    {
      var stale := set h | h in rows && rows[h].at < cutoff;
      removed := |stale|;
      rows := rows - stale;
      assert rows == PruneTx(old(View()), cutoff).rows;
    }

    /** `batch` is what the overdue query returned. */
    method ReconcileScheduled(batch: seq<PostId>) returns (requeued: nat)
      modifies this`owed
      ensures View() == old(View()).(owed := old(owed) + multiset(batch))
      ensures requeued == |batch|
    {
      requeued := 0;
      for i := 0 to |batch|
        invariant requeued == i && owed == old(owed) + multiset(batch[..i])
      {
        owed := owed + multiset{batch[i]};
        requeued := requeued + 1;
        assert batch[..i + 1] == batch[..i] + [batch[i]];
      }
      assert batch[..|batch|] == batch;
    }

    // ---- Steps of one publish run ----

    method SetPhase(j: JobId, phase: Phase)
      requires j in jobs
      modifies this`jobs
      ensures View() == GoTo(old(View()), j, phase)
    {
      jobs := jobs[j := jobs[j].(phase := phase)];
    }

    /** The table changes of the run's current transaction. */
    method CommitRun(j: JobId)
      requires j in jobs
      modifies this`posts, this`rows, this`history
      ensures View() == Commit(old(View()), j)
    {
      var job := jobs[j];
      match job.phase
      case AtClaim => SetState(job.post, Publishing);
      case AtReserve =>
        if job.hash.Some? { var _ := InsertDedupe(j, job.hash.value); }
      case AtMarkDuplicate => SetState(job.post, Rejected);
      case AtRelease => DeleteDedupe(job.hash, job.res);
      case AtMark(id) => StorePublished(j, job.post, id, job.hash);
      case AtFailure => SetState(job.post, PublishFailed);
      case _ =>
    }

    method AdvanceRun(j: JobId)
      requires j in jobs
      modifies this`posts, this`rows, this`history, this`jobs
      ensures View() == AdvanceJob(old(View()), j)
    {
      var next := Successor(View(), j);
      CommitRun(j);
      jobs := if next.None? then jobs - {j} else jobs[j := next.value];
    }

    method RaiseRun(j: JobId, committed: bool)
      requires j in jobs
      modifies this`posts, this`rows, this`history, this`jobs
      ensures View() == RaiseJob(old(View()), j, committed)
    {
      var failing := jobs[j].phase.AtFailure?;
      if committed {
        CommitRun(j);
      }
      jobs := if failing then jobs - {j} else jobs[j := jobs[j].(phase := AtFailure)];
    }

    method CloseAttempt(wait: Option<nat>)
      modifies this`attempts
      ensures View() == old(View()).(attempts := Closed(old(attempts), now, wait))
    {
      if attempts != [] {
        var k := |attempts| - 1;
        attempts := attempts[k := attempts[k].(end := Some(now), wait := wait)];
      }
    }

    method LeaveSection(j: JobId, phase: Phase)
      requires j in jobs
      modifies this`lock, this`attempts, this`jobs
      ensures View() == EndSection(old(View()), j, phase)
    {
      CloseAttempt(None);
      lock := None;
      SetPhase(j, phase);
    }

    method CrashRun(j: JobId)
      requires j in jobs
      modifies this`lock, this`attempts, this`jobs
      ensures View() == CrashJob(old(View()), j)
    {
      if jobs[j].phase.Sending? {
        CloseAttempt(None);
      }
      if lock == Some(j) {
        lock := None;
      }
      jobs := jobs - {j};
    }

    // ---- Any action, and a run's awaits ----

    method IngestPost(content: Hash)
      modifies this`posts, this`nextPost
      ensures var post := Post(Pending, content, None, None, None);
              View() == SetPost(old(View()), old(nextPost), post).(nextPost := old(nextPost) + 1)
    {
      posts := posts[nextPost := Post(Pending, content, None, None, None)];
      nextPost := nextPost + 1;
    }

    method StartRun(p: PostId)
      modifies this`jobs, this`nextJob
      ensures View() == StartJob(old(View()), p)
    {
      jobs := jobs[nextJob := Job(p, now, None, 0, AtGate)];
      nextJob := nextJob + 1;
    }

    method PerformDecision(c: Config, e: Event)
      requires EventEnabled(c, View(), e) && Decides(e)
      modifies this
      ensures View() == EventEffect(c, old(View()), e)
    {
      match e
      case Ingest(content) => IngestPost(content);
      case StoreMedia(p, content) => posts := posts[p := posts[p].(content := content)];
      case RemovePost(p) => posts := posts - {p};
      case Approve(p, inline) =>
        if inline { var _ := CbApprove(p, true); } else { var _ := Decide("approve", p, None); }
      case Schedule(p, at) => var _ := Decide("schedule", p, Some(at));
      case Reject(p) => var _ := Decide("reject", p, None);
    }

    method PerformEvent(c: Config, e: Event)
      requires EventEnabled(c, View(), e) && !Decides(e)
      modifies this
      ensures View() == EventEffect(c, old(View()), e)
    {
      match e
      case Tick(d) => now := now + d;
      case NormalizeLoad(p) => loaded := loaded + multiset{(p, posts[p].content, None)};
      case NormalizeCheck(p, content) => NormalizeCheck(c, p, content);
      case NormalizeCommit(p, content, duplicate, auto) => NormalizeCommit(p, content, duplicate, auto);
      case Reconcile(batch) => var _ := ReconcileScheduled(batch);
      case Prune(cutoff) => var _ := PruneDedupeRows(cutoff);
      case Enqueue(p) => owed, queue := owed - multiset{p}, queue + multiset{p};
      case Start(p) => StartRun(p);
    }

    method EnterSection(c: Config, j: JobId)
      requires j in jobs
      modifies this`lock, this`jobs
      ensures View() == Acquire(c, old(View()), j)
    {
      lock := Some(j);
      SetPhase(j, Spacing(now + c.spacing));
    }

    method BeginSend(j: JobId)
      requires j in jobs
      modifies this`attempts, this`jobs
      ensures View() == Begin(old(View()), j)
    {
      var retry := jobs[j].phase.Backoff?;
      attempts := attempts + [Attempt(j, retry, now, None, None)];
      SetPhase(j, Sending(retry));
    }

    method FinishSend(j: JobId, id: nat)
      requires j in jobs
      modifies this`sends, this`lock, this`attempts, this`jobs
      ensures View() == SendOk(old(View()), j, id)
    {
      sends := sends + [Send(j, jobs[j].post, jobs[j].hash, jobs[j].res, id, now)];
      LeaveSection(j, AtMark(id));
    }

    method BackOff(j: JobId, seconds: nat)
      requires j in jobs
      modifies this`attempts, this`jobs
      ensures View() == RetryAfter(old(View()), j, seconds)
    {
      CloseAttempt(Some(seconds));
      SetPhase(j, Backoff(now + (seconds + 1) * SECOND));
    }

    method PerformMove(c: Config, j: JobId, m: Move)
      requires MoveEnabled(c, View(), j, m)
      modifies this
      ensures View() == MoveEffect(c, old(View()), j, m)
    {
      match m
      case Advance => AdvanceRun(j);
      case NoChannel => CommitRun(j); jobs := jobs - {j};
      case Raise(committed) => RaiseRun(j, committed);
      case AcquireLock => EnterSection(c, j);
      case BeginAttempt => BeginSend(j);
      case AttemptOk(id) => FinishSend(j, id);
      case AttemptRetryAfter(seconds) => BackOff(j, seconds);
      case AttemptFails => LeaveSection(j, AtRelease);
      case Crash => CrashRun(j);
    }

    method Perform(c: Config, a: Action)
      modifies this
      ensures View() == Step(c, old(View()), a)
    {
      if Enabled(c, View(), a) {
        match a
        case World(e) => if Decides(e) { PerformDecision(c, e); } else { PerformEvent(c, e); }
        case OfRun(j, m) => PerformMove(c, j, m);
      }
    }

    /** The run takes one step of its own. */
    method Take(c: Config, j: JobId, m: Move, ghost e: Surroundings, ghost from: State, ghost trace: seq<Action>)
      returns (ghost longer: seq<Action>)
      requires Base(c, View()) && MoveEnabled(c, View(), j, m) && View() == Run(c, from, trace)
      requires Scripted(c, e, from, trace, j) && Dictated(c, e, View(), j, m)
      modifies this
      ensures View() == MoveEffect(c, old(View()), j, m)
      ensures Scripted(c, e, from, longer, j) && now == old(now)
      ensures Base(c, View()) && View() == Run(c, from, longer) && longer == trace + [OfRun(j, m)]
      ensures !m.AttemptOk? ==> sends == old(sends)
    {
      BaseStep(c, View(), OfRun(j, m));
      MoveFrame(c, View(), j, m);
      ScriptedNext(c, e, from, trace, j, OfRun(j, m));
      RunConcat(c, from, trace, [OfRun(j, m)]);
      longer := trace + [OfRun(j, m)];
      assert [OfRun(j, m)][1..] == [];
      assert Run(c, Step(c, View(), OfRun(j, m)), []) == Step(c, View(), OfRun(j, m));
      PerformMove(c, j, m);
    }

    /** The run is suspended, at least until `wake`, while the others act; past its timeout it is cancelled. */
    method Await(c: Config, j: JobId, others: seq<Action>, wake: int, ghost e: Surroundings,
                 ghost from: State, ghost trace: seq<Action>)
      returns (alive: bool, ghost longer: seq<Action>)
      requires Base(c, View()) && j in jobs && View() == Run(c, from, trace)
      requires Scripted(c, e, from, trace, j)
      modifies this
      ensures Scripted(c, e, from, longer, j)
      ensures now == if old(now) + Elapsed(others) < wake then wake else old(now) + Elapsed(others)
      ensures Base(c, View()) && View() == Run(c, from, longer) && SendsBy(sends, j) == old(SendsBy(sends, j))
      ensures trace <= longer
      ensures alive ==> j in jobs && jobs[j] == old(jobs[j]) && Live(c, View(), j) && wake <= now
      ensures alive && !Removes(others) ==> old(posts).Keys <= posts.Keys
      ensures !alive ==> j !in jobs && old(jobs[j].start) + c.timeout < now
    {
      hide Base;
      longer := trace;
      for i := 0 to |others|
        invariant Base(c, View()) && View() == Run(c, from, longer) && j in jobs && jobs[j] == old(jobs[j])
        invariant SendsBy(sends, j) == old(SendsBy(sends, j))
        invariant Scripted(c, e, from, longer, j) && now == old(now) + Elapsed(others[..i])
        invariant trace <= longer
        invariant !Removes(others) ==> old(posts).Keys <= posts.Keys
      {
        PostsKept(c, View(), others[i]);
        ElapsedNext(others, i);
        if Foreign(others[i], j) {
          longer := Let(c, j, others[i], e, from, longer);
        }
      }
      assert others[..|others|] == others;
      if now < wake {
        longer := Let(c, j, World(Tick(wake - now)), e, from, longer);
        assert wake <= now;
      }
      alive := now <= jobs[j].start + c.timeout;
      if !alive {
        longer := Take(c, j, Crash, e, from, longer);
      }
    }

    /** Somebody else takes one step. */
    method Let(c: Config, j: JobId, a: Action, ghost e: Surroundings, ghost from: State, ghost trace: seq<Action>)
      returns (ghost longer: seq<Action>)
      requires Base(c, View()) && j in jobs && Foreign(a, j) && View() == Run(c, from, trace)
      requires Scripted(c, e, from, trace, j)
      modifies this
      ensures Scripted(c, e, from, longer, j)
      ensures now == old(now) + if a.World? && a.event.Tick? then a.event.elapsed else 0
      ensures Base(c, View()) && View() == Run(c, from, longer) && View() == Step(c, old(View()), a)
      ensures trace <= longer
      ensures j in jobs && jobs[j] == old(jobs[j]) && SendsBy(sends, j) == old(SendsBy(sends, j))
    {
      ForeignStep(c, View(), a, j);
      StepTime(c, View(), a);
      ScriptedNext(c, e, from, trace, j, a);
      RunConcat(c, from, trace, [a]);
      longer := trace + [a];
      assert Run(c, Step(c, View(), a), [a][1..]) == Step(c, View(), a);
      Perform(c, a);
    }

    // ---- The publish job ----

    /** A refusal reports what the post looks like. */
    predicate Refuses(p: PostId, outcome: Outcome)
      reads this
    {
      match outcome
      case NotFound => p !in posts
      case AlreadyPublished => p in posts && posts[p].messageId.Some?
      case Skipped(state) =>
        p in posts && posts[p].state == state && (state.Rejected? || state.Published? || state.Publishing?)
      case Duplicate => p in posts ==> posts[p].state.Rejected?
      case _ => true
    }

    function GateVerdict(p: PostId): (refusal: Option<Outcome>)
      reads this
      ensures refusal.Some? ==>
                Refuses(p, refusal.value) &&
                (refusal.value.NotFound? || refusal.value.AlreadyPublished? || refusal.value.Skipped?)
      ensures refusal.None? <==> GatePasses(View(), p)
    {
      if p !in posts then Some(NotFound)
      else if posts[p].messageId.Some? then Some(AlreadyPublished)
      else if posts[p].state.Rejected? || posts[p].state.Published? || posts[p].state.Publishing? then
        Some(Skipped(posts[p].state))
      else None
    }

    /** Read the post and its hash, and refuse or go on. */
    method Admit(c: Config, j: JobId, ghost e: Surroundings, ghost from: State, ghost trace: seq<Action>)
      returns (refusal: Option<Outcome>, ghost longer: seq<Action>)
      requires Base(c, View()) && Live(c, View(), j) && jobs[j].phase.AtGate? && View() == Run(c, from, trace)
      requires Scripted(c, e, from, trace, j) && e.raises(0).None?
      modifies this
      ensures Scripted(c, e, from, longer, j) && now == old(now)
      ensures Base(c, View()) && View() == Run(c, from, longer) && sends == old(sends) && posts == old(posts)
      ensures refusal == old(GateVerdict(jobs[j].post))
      ensures if refusal.Some? then j !in jobs && Refuses(old(jobs[j].post), refusal.value)
              else j in jobs && jobs[j].phase.AtClaim? && jobs[j].start == old(jobs[j].start) &&
                   jobs[j].post == old(jobs[j].post) &&
                   jobs[j].post in posts && jobs[j].hash == posts[jobs[j].post].hash
    {
      hide Base;
      refusal := GateVerdict(jobs[j].post);
      longer := Take(c, j, Advance, e, from, trace);
    }

    /** Commit `publishing`, whatever the others did since the read; a deleted post makes the update raise. */
    method Claim(c: Config, j: JobId, e: Surroundings, ghost from: State, ghost trace: seq<Action>)
      returns (stop: Option<Outcome>, ghost longer: seq<Action>)
      requires Base(c, View()) && j in jobs && jobs[j].phase.AtClaim? && jobs[j].post in posts
      requires View() == Run(c, from, trace) && Scripted(c, e, from, trace, j)
      modifies this
      ensures Scripted(c, e, from, longer, j) && now == old(now) + Elapsed(e.others(12))
      ensures Base(c, View()) && View() == Run(c, from, longer) && SendsBy(sends, j) == old(SendsBy(sends, j))
      ensures stop.Some? ==> stop.value in {ChannelMissing, Raised, Cancelled}
      ensures stop.Some? && !stop.value.Raised? ==> j !in jobs
      ensures stop == Some(Raised) ==> j in jobs && jobs[j].phase.AtFailure?
      ensures stop.None? ==> j in jobs && jobs[j].phase == if jobs[j].hash.Some? then AtCheck else AwaitLock
      ensures stop.None? || stop == Some(ChannelMissing) ==>
                old(jobs[j].post) in posts && posts[old(jobs[j].post)].state.Publishing?
      ensures j in jobs ==> jobs[j].start == old(jobs[j].start) && jobs[j].post == old(jobs[j].post)
      ensures stop.Some? ==> Explained(c, e, old(jobs[j].start), now, stop.value)
    {
      hide Base;
      hide Run;
      hide SendsBy;
      hide Scripted;
      hide Elapsed;
      hide SomethingRaises;
      hide Removes;
      var alive;
      Raises(e, 12);
      alive, longer := Await(c, j, e.others(12), now, e, from, trace);
      if !alive { return Some(Cancelled), longer; }
      if e.raises(12).Some? || jobs[j].post !in posts {
        longer := Take(c, j, Raise(e.raises(12).UnwrapOr(false)), e, from, longer);
        return Some(Raised), longer;
      }
      longer := Take(c, j, if e.channel then Advance else NoChannel, e, from, longer);
      stop := if e.channel then None else Some(ChannelMissing);
    }

    /** The gate, with the others acting before it and an exception possible in it. */
    method PassGate(c: Config, j: JobId, e: Surroundings, ghost from: State, ghost trace: seq<Action>)
      returns (stop: Option<Outcome>, ghost longer: seq<Action>)
      requires Base(c, View()) && j in jobs && jobs[j].phase.AtGate? && View() == Run(c, from, trace)
      requires Scripted(c, e, from, trace, j)
      modifies this
      ensures Scripted(c, e, from, longer, j) && now <= old(now) + GateDelay(e)
      ensures Base(c, View()) && View() == Run(c, from, longer) && SendsBy(sends, j) == old(SendsBy(sends, j))
      ensures stop.Some? && !stop.value.Raised? ==> j !in jobs && !stop.value.Delivered? && !stop.value.Duplicate?
      ensures stop == Some(Raised) ==> j in jobs && jobs[j].phase.AtFailure?
      ensures stop.None? ==> j in jobs && jobs[j].phase == if jobs[j].hash.Some? then AtCheck else AwaitLock
      ensures j in jobs ==> jobs[j].start == old(jobs[j].start) && jobs[j].post == old(jobs[j].post)
      ensures stop.Some? ==> Explained(c, e, old(jobs[j].start), now, stop.value)
      ensures stop.Some? ==> Refuses(old(jobs[j].post), stop.value)
    {
      hide Base;
      hide Run;
      hide SendsBy;
      hide Scripted;
      hide Elapsed;
      hide SomethingRaises;
      hide Removes;
      var alive;
      Raises(e, 0);
      alive, longer := Await(c, j, e.others(0), now, e, from, trace);
      if !alive { return Some(Cancelled), longer; }
      if e.raises(0).Some? {
        longer := Take(c, j, Raise(e.raises(0).value), e, from, longer);
        return Some(Raised), longer;
      }
      stop, longer := Admit(c, j, e, from, longer);
      if stop.None? {
        stop, longer := Claim(c, j, e, from, longer);
      }
    }

    /** What follows a transaction that neither raised nor was cut short. */
    static predicate Led(before: Phase, ended: bool, after: Phase) {
      match before
      case AtCheck => !ended && (after.AtMarkDuplicate? || after.AtReserve?)
      case AtReserve => !ended && (after.AtMarkDuplicate? || after.AwaitLock?)
      case AtRelease => !ended && after.AtFailure?
      case AtMark(_) => !ended && after.AtCard?
      case _ => ended
    }

    /** One later transaction of the run: others first, then an exception or the commit. */
    method Transact(c: Config, j: JobId, e: Surroundings, k: nat, ghost from: State, ghost trace: seq<Action>)
      returns (stop: Option<Outcome>, ghost longer: seq<Action>)
      requires Base(c, View()) && j in jobs && View() == Run(c, from, trace)
      requires InTransaction(jobs[j].phase) && !jobs[j].phase.AtGate? && !jobs[j].phase.AtClaim?
      requires Scripted(c, e, from, trace, j) && k == AwaitOf(jobs[j].phase)
      modifies this
      ensures Scripted(c, e, from, longer, j) && now == old(now) + Elapsed(e.others(k))
      ensures Base(c, View()) && View() == Run(c, from, longer) && SendsBy(sends, j) == old(SendsBy(sends, j))
      ensures trace <= longer
      ensures stop.None? ==> Led(old(jobs[j].phase), j !in jobs, if j in jobs then jobs[j].phase else AtGate)
      ensures stop.None? && Looks(old(jobs[j].phase)) && j in jobs && jobs[j].phase.AtMarkDuplicate? ==>
                FoundTaken(c, from, longer, j)
      ensures stop.None? && old(jobs[j].phase.AtMarkDuplicate?) ==> Refuses(old(jobs[j].post), Duplicate)
      ensures stop.Some? ==> stop.value.Raised? || stop.value.Cancelled?
      ensures stop == Some(Cancelled) ==> j !in jobs
      ensures j in jobs ==> jobs[j].start == old(jobs[j].start) && jobs[j].post == old(jobs[j].post)
      ensures stop.Some? ==> Explained(c, e, old(jobs[j].start), now, stop.value)
      ensures stop == Some(Raised) ==> SomethingRaises(e)
      ensures stop == Some(Raised) ==>
                if old(jobs[j].phase.AtFailure?) then j !in jobs else j in jobs && jobs[j].phase.AtFailure?
    {
      hide Base;
      hide Scripted;
      hide Elapsed;
      hide SomethingRaises;
      hide Removes;
      var alive;
      Raises(e, k);
      alive, longer := Await(c, j, e.others(k), now, e, from, trace);
      if !alive { return Some(Cancelled), longer; }
      if e.raises(k).Some? {
        longer := Take(c, j, Raise(e.raises(k).value), e, from, longer);
        return Some(Raised), longer;
      }
      Leads(View(), j);
      ghost var before, was := longer, View();
      longer := Take(c, j, Advance, e, from, longer);
      assert longer[..|before|] == before;
      assert Finds(was, OfRun(j, Advance), j) ==> FindsAt(c, from, longer, |before|, j);
      stop := None;
    }

    lemma Leads(s: State, j: JobId)
      requires j in s.jobs && InTransaction(s.jobs[j].phase) && !s.jobs[j].phase.AtGate? && !s.jobs[j].phase.AtClaim?
      ensures var next := Successor(s, j);
              Led(s.jobs[j].phase, next.None?, if next.Some? then next.value.phase else AtGate)
      ensures Looks(s.jobs[j].phase) && Successor(s, j).Some? && Successor(s, j).value.phase.AtMarkDuplicate? ==>
                Finds(s, OfRun(j, Advance), j)
    {
    }

    /** The two dedupe checks: look, then insert; either may find that another run was first. */
    method Reserve(c: Config, j: JobId, e: Surroundings, ghost from: State, ghost trace: seq<Action>)
      returns (stop: Option<Outcome>, ghost longer: seq<Action>)
      requires Base(c, View()) && j in jobs && jobs[j].phase.AtCheck? && View() == Run(c, from, trace)
      requires Scripted(c, e, from, trace, j)
      modifies this
      ensures Scripted(c, e, from, longer, j) && now <= old(now) + CheckDelay(e)
      ensures Base(c, View()) && View() == Run(c, from, longer) && SendsBy(sends, j) == old(SendsBy(sends, j))
      ensures stop.None? ==> j in jobs && jobs[j].phase.AwaitLock?
      ensures stop.Some? ==> stop.value in {Duplicate, Raised, Cancelled}
      ensures j in jobs ==> jobs[j].start == old(jobs[j].start)
      ensures stop.Some? ==> Explained(c, e, old(jobs[j].start), now, stop.value)
      ensures stop == Some(Raised) ==> j in jobs && jobs[j].phase.AtFailure?
      ensures stop.Some? && !stop.value.Raised? ==> j !in jobs
      ensures stop == Some(Duplicate) ==> FoundTaken(c, from, longer, j) && Refuses(old(jobs[j].post), Duplicate)
    {
      hide Base;
      hide Run;
      hide SendsBy;
      hide FoundTaken;
      stop, longer := Transact(c, j, e, 1, from, trace);
      if stop.Some? { return; }
      if jobs[j].phase.AtReserve? {
        stop, longer := Transact(c, j, e, 2, from, longer);
        if stop.Some? { return; }
      }
      if jobs[j].phase.AtMarkDuplicate? {
        ghost var looked := longer;
        stop, longer := Transact(c, j, e, 3, from, longer);
        if stop.None? {
          FoundLater(c, from, looked, longer, j);
          stop := Some(Duplicate);
        }
      }
    }

    /** Take the send lock, or be cancelled waiting for it, and sleep out the spacing. */
    method TakeTurn(c: Config, j: JobId, e: Surroundings, ghost from: State, ghost trace: seq<Action>)
      returns (alive: bool, ghost longer: seq<Action>)
      requires Base(c, View()) && j in jobs && jobs[j].phase.AwaitLock? && View() == Run(c, from, trace)
      requires Scripted(c, e, from, trace, j)
      modifies this
      ensures Scripted(c, e, from, longer, j)
      ensures now <= old(now) + TurnDelay(c, e) || (!alive && FoundLocked(c, from, longer, j))
      ensures Base(c, View()) && View() == Run(c, from, longer) && SendsBy(sends, j) == old(SendsBy(sends, j))
      ensures if alive then
                Live(c, View(), j) && jobs[j].phase.Spacing? && jobs[j].phase.until <= now &&
                jobs[j].start == old(jobs[j].start)
              else j !in jobs && old(jobs[j].start) + c.timeout < now
    {
      hide Base;
      alive, longer := Await(c, j, e.others(4), now, e, from, trace);
      if alive && lock.Some? {
        LockedHere(c, from, longer, j);
        ghost var waiting := longer;
        alive, longer := Await(c, j, [], jobs[j].start + c.timeout + 1, e, from, longer);
        LockedLater(c, from, waiting, longer, j);
      }
      if alive {
        longer := Take(c, j, AcquireLock, e, from, longer);
        alive, longer := Await(c, j, e.others(5), jobs[j].phase.until, e, from, longer);
      }
    }

    /** Telegram answers, or the call fails; a second RetryAfter is a failure like any other. */
    method Answer(c: Config, j: JobId, answer: Telegram, ghost e: Surroundings,
                  ghost from: State, ghost trace: seq<Action>)
      returns (ghost longer: seq<Action>)
      requires Base(c, View()) && Live(c, View(), j) && jobs[j].phase.Sending? && View() == Run(c, from, trace)
      requires Scripted(c, e, from, trace, j) && answer == AnswerTo(e, jobs[j].phase)
      modifies this
      ensures Scripted(c, e, from, longer, j) && now == old(now)
      ensures Base(c, View()) && View() == Run(c, from, longer) && j in jobs && jobs[j].start == old(jobs[j].start)
      ensures jobs[j].phase.AtMark? <==> answer.Returned? && answer.id != 0
      ensures jobs[j].phase.Backoff? <==> answer.FloodWait? && old(jobs[j].phase) == Sending(false)
      ensures jobs[j].phase.AtMark? || jobs[j].phase.Backoff? || jobs[j].phase.AtRelease?
      ensures SendsBy(sends, j) == old(SendsBy(sends, j)) + if jobs[j].phase.AtMark? then [SendNow(j)] else []
      ensures jobs[j].phase.AtMark? ==> jobs[j].phase.id == answer.id
      ensures jobs[j].phase.Backoff? ==> jobs[j].phase.until == now + (answer.seconds + 1) * 1000
    {
      hide Base;
      if answer.Returned? && answer.id != 0 {
        ghost var s := View();
        longer := Take(c, j, AttemptOk(answer.id), e, from, trace);
        assert sends[..|s.sends|] == s.sends;
      } else if answer.FloodWait? && jobs[j].phase == Sending(false) {
        longer := Take(c, j, AttemptRetryAfter(answer.seconds), e, from, trace);
      } else {
        longer := Take(c, j, AttemptFails, e, from, trace);
      }
    }

    /** The log entry of a send that has just returned its id. */
    function SendNow(j: JobId): Send
      requires j in jobs && jobs[j].phase.AtMark?
      reads this
    {
      Send(j, jobs[j].post, jobs[j].hash, jobs[j].res, jobs[j].phase.id, now)
    }

    /** Where a call made while waiting in `before` leads. */
    static predicate After(before: Phase, answer: Telegram, after: Phase) {
      if answer.Returned? && answer.id != 0 then after == AtMark(answer.id)
      else if answer.FloodWait? && before.Spacing? then after.Backoff?
      else after.AtRelease?
    }

    /** One `_send_post` call. */
    method SendPost(c: Config, j: JobId, others: seq<Action>, answer: Telegram, ghost e: Surroundings,
                    ghost from: State, ghost trace: seq<Action>)
      returns (alive: bool, ghost longer: seq<Action>)
      requires Base(c, View()) && Live(c, View(), j) && View() == Run(c, from, trace)
      requires (jobs[j].phase.Spacing? || jobs[j].phase.Backoff?) && jobs[j].phase.until <= now
      requires Scripted(c, e, from, trace, j) && answer == AnswerTo(e, Sending(jobs[j].phase.Backoff?))
      modifies this
      ensures Scripted(c, e, from, longer, j) && now == old(now) + Elapsed(others)
      ensures Base(c, View()) && View() == Run(c, from, longer) && (alive <==> j in jobs)
      ensures if alive then jobs[j].start == old(jobs[j].start) && After(old(jobs[j].phase), answer, jobs[j].phase)
              else old(jobs[j].start) + c.timeout < now
      ensures alive && answer.FloodWait? && jobs[j].phase.Backoff? ==>
                jobs[j].phase.until == now + (answer.seconds + 1) * 1000
      ensures SendsBy(sends, j) == old(SendsBy(sends, j)) + if alive && jobs[j].phase.AtMark? then [SendNow(j)] else []
    {
      hide Base;
      longer := Take(c, j, BeginAttempt, e, from, trace);
      alive, longer := Await(c, j, others, now, e, from, longer);
      if alive {
        longer := Answer(c, j, answer, e, from, longer);
      }
    }

    /** After a RetryAfter: sleep it out and try once more. */
    method SendAgain(c: Config, j: JobId, e: Surroundings, ghost from: State, ghost trace: seq<Action>)
      returns (alive: bool, ghost longer: seq<Action>)
      requires Base(c, View()) && j in jobs && jobs[j].phase.Backoff? && View() == Run(c, from, trace)
      requires Scripted(c, e, from, trace, j) && jobs[j].phase.until == now + Pause(e)
      modifies this
      ensures Scripted(c, e, from, longer, j)
      ensures now <= old(now) + Pause(e) + Elapsed(e.others(7)) + Elapsed(e.others(8))
      ensures Base(c, View()) && View() == Run(c, from, longer) && (alive <==> j in jobs)
      ensures if alive then jobs[j].start == old(jobs[j].start) && After(old(jobs[j].phase), e.second, jobs[j].phase)
              else old(jobs[j].start) + c.timeout < now
      ensures SendsBy(sends, j) == old(SendsBy(sends, j)) + if alive && jobs[j].phase.AtMark? then [SendNow(j)] else []
    {
      hide Base;
      alive, longer := Await(c, j, e.others(7), jobs[j].phase.until, e, from, trace);
      if alive {
        alive, longer := SendPost(c, j, e.others(8), e.second, e, from, longer);
      }
    }

    static predicate Resolved(e: Surroundings, phase: Phase) {
      if AcceptedId(e) != 0 then phase == AtMark(AcceptedId(e)) else phase.AtRelease?
    }

    /** The body of the critical section: a first attempt and, after a RetryAfter, one more. */
    method SpacedSend(c: Config, j: JobId, e: Surroundings, ghost from: State, ghost trace: seq<Action>)
      returns (alive: bool, ghost longer: seq<Action>)
      requires Base(c, View()) && Live(c, View(), j) && View() == Run(c, from, trace)
      requires jobs[j].phase.Spacing? && jobs[j].phase.until <= now
      requires Scripted(c, e, from, trace, j)
      modifies this
      ensures Scripted(c, e, from, longer, j) && now <= old(now) + SendDelay(e)
      ensures Base(c, View()) && View() == Run(c, from, longer) && (alive <==> j in jobs)
      ensures if alive then jobs[j].start == old(jobs[j].start) && Resolved(e, jobs[j].phase)
              else old(jobs[j].start) + c.timeout < now
      ensures SendsBy(sends, j) == old(SendsBy(sends, j)) + if alive && jobs[j].phase.AtMark? then [SendNow(j)] else []
    {
      hide Base;
      alive, longer := SendPost(c, j, e.others(6), e.first, e, from, trace);
      if alive && jobs[j].phase.Backoff? {
        alive, longer := SendAgain(c, j, e, from, longer);
      }
    }

    /**
     `_publish_core`: the run is one of the protocol's runs whatever the others do. It
     delivers at most once; it reports a delivery only after its send and its mark, and
     a skip or a duplicate only when it sent nothing.
     */
    method PublishCore(c: Config, j: JobId, e: Surroundings, ghost from: State, ghost trace: seq<Action>)
      returns (outcome: Outcome, ghost longer: seq<Action>)
      requires Base(c, View()) && j in jobs && jobs[j].phase.AtGate? && View() == Run(c, from, trace)
      requires SendsBy(sends, j) == [] && Scripted(c, e, from, trace, j)
      modifies this
      ensures Base(c, View()) && View() == Run(c, from, longer)
      ensures Scripted(c, e, from, longer, j)
      ensures now <= old(now) + Delay(c, e) - Elapsed(e.others(11)) ||
              (outcome.Cancelled? && FoundLocked(c, from, longer, j))
      ensures if outcome.Raised? then j in jobs && jobs[j].phase.AtFailure? else j !in jobs
      ensures Sent(outcome, SendsBy(sends, j)) && Explained(c, e, old(jobs[j].start), now, outcome)
      ensures Refuses(old(jobs[j].post), outcome) && (outcome.Duplicate? ==> FoundTaken(c, from, longer, j))
    {
      hide Base;
      hide Run;
      hide FoundTaken;
      var stop;
      stop, longer := PassGate(c, j, e, from, trace);
      if stop.None? && jobs[j].phase.AtCheck? {
        stop, longer := Reserve(c, j, e, from, longer);
      }
      if stop.Some? { return stop.value, longer; }
      outcome, longer := Deliver(c, j, e, from, longer);
    }

    /** How many sends each outcome means. */
    static predicate Sent(outcome: Outcome, mine: seq<Send>) {
      match outcome
      case Delivered(id) => |mine| == 1 && mine[0].id == id
      case Raised => |mine| <= 1
      case Cancelled => |mine| <= 1
      case _ => mine == []
    }

    /** After the send: release and raise, or mark and edit the card. */
    method Settle(c: Config, j: JobId, e: Surroundings, ghost from: State, ghost trace: seq<Action>)
      returns (outcome: Outcome, ghost longer: seq<Action>)
      requires Base(c, View()) && j in jobs && View() == Run(c, from, trace)
      requires Resolved(e, jobs[j].phase)
      requires SendsBy(sends, j) == if jobs[j].phase.AtMark? then [SendNow(j)] else []
      requires Scripted(c, e, from, trace, j)
      modifies this
      ensures Scripted(c, e, from, longer, j)
      ensures now <= old(now) + Elapsed(e.others(9)) + Elapsed(e.others(10))
      ensures Base(c, View()) && View() == Run(c, from, longer)
      ensures if outcome.Raised? then j in jobs && jobs[j].phase.AtFailure? else j !in jobs
      ensures Sent(outcome, SendsBy(sends, j)) && Explained(c, e, old(jobs[j].start), now, outcome)
      ensures outcome.Delivered? || outcome.Raised? || outcome.Cancelled?
    {
      hide Base;
      hide Run;
      hide SendsBy;
      hide SomethingRaises;
      var stop;
      var phase := jobs[j].phase;
      stop, longer := Transact(c, j, e, 9, from, trace);
      if stop.Some? { return stop.value, longer; }
      if phase.AtRelease? { return Raised, longer; }
      stop, longer := Transact(c, j, e, 10, from, longer);
      outcome := if stop.Some? then stop.value else Delivered(phase.id);
    }

    /** ARQ takes a queued post: a run that has not sent anything. */
    method Dequeue(c: Config, p: PostId, ghost e: Surroundings) returns (j: JobId, ghost trace: seq<Action>)
      requires Base(c, View()) && p in queue
      modifies this
      ensures Scripted(c, e, old(View()), trace, j) && now == old(now)
      ensures Base(c, View()) && View() == Run(c, old(View()), trace)
      ensures j == old(nextJob) && j in jobs && SendsBy(sends, j) == []
      ensures jobs[j].phase.AtGate? && jobs[j].post == p && jobs[j].start == old(now)
    {
      j := nextJob;
      ghost var s := View();
      SendsByNone(sends, j);
      trace := [World(Start(p))];
      ScriptedNext(c, e, s, [], j, World(Start(p)));
      assert [] + [World(Start(p))] == trace;
      BaseStep(c, s, World(Start(p)));
      assert Run(c, Step(c, s, World(Start(p))), trace[1..]) == StartJob(s, p);
      StartRun(p);
    }

    /** From the lock to the end: the part that touches Telegram. */
    method Deliver(c: Config, j: JobId, e: Surroundings, ghost from: State, ghost trace: seq<Action>)
      returns (outcome: Outcome, ghost longer: seq<Action>)
      requires Base(c, View()) && j in jobs && jobs[j].phase.AwaitLock? && View() == Run(c, from, trace)
      requires SendsBy(sends, j) == [] && Scripted(c, e, from, trace, j)
      modifies this
      ensures Base(c, View()) && View() == Run(c, from, longer)
      ensures Scripted(c, e, from, longer, j)
      ensures now <= old(now) + TurnDelay(c, e) + SendDelay(e) + Elapsed(e.others(9)) + Elapsed(e.others(10)) ||
              (outcome.Cancelled? && FoundLocked(c, from, longer, j))
      ensures if outcome.Raised? then j in jobs && jobs[j].phase.AtFailure? else j !in jobs
      ensures Sent(outcome, SendsBy(sends, j)) && Explained(c, e, old(jobs[j].start), now, outcome)
      ensures outcome.Delivered? || outcome.Raised? || outcome.Cancelled?
    {
      hide Base;
      var alive;
      alive, longer := TakeTurn(c, j, e, from, trace);
      if alive {
        alive, longer := SpacedSend(c, j, e, from, longer);
      }
      if alive {
        outcome, longer := Settle(c, j, e, from, longer);
      } else {
        outcome := Cancelled;
      }
    }

    /**
     The ARQ job: a run for a queued post, with the failure handler around its core. Every
     move of the run is dictated by its surroundings, and it dawdles nowhere: a job with
     enough time that does not find the lock held is not cancelled.
     */
    method Publish(c: Config, p: PostId, e: Surroundings) returns (outcome: Outcome, ghost trace: seq<Action>)
      requires Base(c, View()) && p in queue
      modifies this
      ensures Base(c, View()) && View() == Run(c, old(View()), trace)
      ensures old(nextJob) !in jobs && Sent(outcome, SendsBy(sends, old(nextJob)))
      ensures Explained(c, e, old(now), now, outcome) && Refuses(p, outcome)
      ensures outcome.Duplicate? ==> FoundTaken(c, old(View()), trace, old(nextJob))
      ensures Scripted(c, e, old(View()), trace, old(nextJob))
      ensures now <= old(now) + Delay(c, e) || (outcome.Cancelled? && FoundLocked(c, old(View()), trace, old(nextJob)))
    {
      hide Base;
      ghost var s := View();
      var j;
      j, trace := Dequeue(c, p, e);
      outcome, trace := PublishCore(c, j, e, s, trace);
      if outcome.Raised? {
        var _, longer := Transact(c, j, e, 11, s, trace);
        trace := longer;
      }
    }
  }
}
