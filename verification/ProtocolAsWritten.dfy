/**
 The mark read literally. `_mark_published` hands an SQL statement to `session.add`,
 which refuses it, so the mark of a hashed post raises before its commit. The runs of
 that reading are those runs of the protocol in which no hashed mark commits; what holds
 in every run holds in them, and this says what else becomes of a post.
 */
module ProtocolAsWritten {
  import opened Options
  import opened Protocol
  import opened ProtocolInvariants
  import opened ProtocolFrames
  import opened ProtocolTheorems
  import opened ProtocolWriteOnce
  import opened ProtocolSegments
  import opened ProtocolDeliveries

  /** The run is about to mark a hashed post that is still there. */
  predicate AtHashedMark(s: State, j: JobId) {
    j in s.jobs && s.jobs[j].phase.AtMark? && s.jobs[j].hash.Some? && s.jobs[j].post in s.posts
  }

  /** Such a mark may only raise, before its commit, or be cut off. */
  predicate AsWritten(s: State, a: Action) {
    a.OfRun? && AtHashedMark(s, a.job) ==> !a.move.Advance? && a.move != Raise(true)
  }

  ghost predicate AsWrittenRun(c: Config, s: State, run: seq<Action>)
    decreases |run|
  {
    run == [] || (AsWritten(s, run[0]) && AsWrittenRun(c, Step(c, s, run[0]), run[1..]))
  }

  ghost predicate NothingMarked(s: State) {
    forall p :: p in s.posts ==> s.posts[p].messageId.None?
  }

  lemma UnmarkedMove(c: Config, s: State, j: JobId, m: Move)
    requires Base(c, s) && Settled(s) && NothingMarked(s) && MoveEnabled(c, s, j, m) && AsWritten(s, OfRun(j, m))
    ensures NothingMarked(MoveEffect(c, s, j, m))
  {
    if TransactionMove(m) {
      TransactionTables(c, s, j, m);
      CommitFrame(s, j);
      if s.jobs[j].phase.AtMark? && s.jobs[j].post in s.posts {
        assert AtHashedMark(s, j);
      }
    } else {
      SectionFrame(c, s, j, m);
      hide MoveEffect;
    }
  }

  lemma UnmarkedStep(c: Config, s: State, a: Action)
    requires Base(c, s) && Settled(s) && NothingMarked(s) && AsWritten(s, a)
    ensures NothingMarked(Step(c, s, a))
  {
    if Enabled(c, s, a) {
      match a
      case World(e) => if !e.Start? { EventFrame(c, s, e); hide EventEffect; }
      case OfRun(j, m) => UnmarkedMove(c, s, j, m);
    }
    hide MoveEffect;
  }

  lemma {:induction false} UnmarkedRun(c: Config, s: State, run: seq<Action>)
    requires Base(c, s) && Settled(s) && NothingMarked(s) && DisciplinedRun(c, s, run) && AsWrittenRun(c, s, run)
    ensures Base(c, Run(c, s, run)) && NothingMarked(Run(c, s, run))
    decreases |run|
  {
    if run != [] {
      BaseStep(c, s, run[0]);
      SettledStep(c, s, run[0]);
      UnmarkedStep(c, s, run[0]);
      UnmarkedRun(c, Step(c, s, run[0]), run[1..]);
    }
  }

  /** Read literally, no normalized post ever becomes published or gets a message id, in any disciplined run. */
  lemma NothingPublished(c: Config, run: seq<Action>, p: PostId)
    requires DisciplinedRun(c, Init(), run) && AsWrittenRun(c, Init(), run)
    requires p in Run(c, Init(), run).posts
    ensures var post := Run(c, Init(), run).posts[p]; post.messageId.None? && !post.state.Published?
  {
    InitHolds(c);
    UnmarkedRun(c, Init(), run);
  }

  // ---- One post, undisturbed ----

  /** The send, the mark that raises, the failure handler. */
  function MarkRaises(j: JobId, id: nat): seq<Action> {
    [OfRun(j, AttemptOk(id))] + [OfRun(j, Raise(false))] + [OfRun(j, Advance)]
  }

  lemma RaiseStep(c: Config, s: State, j: JobId)
    requires Live(c, s, j) && s.jobs[j].phase.AtMark?
    ensures Step(c, s, OfRun(j, Raise(false))) == GoTo(s, j, AtFailure)
  {
  }

  lemma MarkRaised(c: Config, s: State, j: JobId, id: nat)
    requires Live(c, s, j) && s.jobs[j].phase.Sending? && s.jobs[j].post in s.posts && id != 0
    ensures var p := s.jobs[j].post; var t := Run(c, s, MarkRaises(j, id));
            t == s.(posts := s.posts[p := s.posts[p].(state := PublishFailed)], jobs := s.jobs - {j}, lock := None,
                    attempts := Closed(s.attempts, s.now, None),
                    sends := s.sends + [Send(j, p, s.jobs[j].hash, s.jobs[j].res, id, s.now)])
  {
    var u := SendOk(s, j, id);
    var v := GoTo(u, j, AtFailure);
    RunOne(c, s, OfRun(j, AttemptOk(id)));
    SendOkStep(c, s, j, id);
    RunNext(c, s, [OfRun(j, AttemptOk(id))], OfRun(j, Raise(false)));
    RaiseStep(c, u, j);
    RunNext(c, s, [OfRun(j, AttemptOk(id))] + [OfRun(j, Raise(false))], OfRun(j, Advance));
    FailureStep(c, v, j);
    assert v.jobs - {j} == s.jobs - {j};
    hide Step;
    hide Run;
    hide DisciplinedRun;
  }

  /** Read literally, an undisturbed run sends its post once and leaves it failed, with its row kept. */
  lemma FailsAfterSending(c: Config, s: State, p: PostId, id: nat)
    requires c.spacing <= c.timeout && p in s.queue && GatePasses(s, p) && s.lock.None? && id != 0
    requires s.posts[p].hash.Some? && s.posts[p].hash.value !in s.rows
    ensures var t := Run(c, s, Retrying(c, s, p) + MarkRaises(s.nextJob, id)); var h := s.posts[p].hash.value;
            p in t.posts && t.posts[p] == s.posts[p].(state := PublishFailed) &&
            h in t.rows && t.rows[h] == Row(|s.history|, s.now) && t.lock.None? && s.nextJob !in t.jobs &&
            t.queue == s.queue &&
            t.sends == s.sends + [Send(s.nextJob, p, Some(h), |s.history|, id, s.now + c.spacing)]
  {
    hide Run;
    hide Step;
    hide Retrying;
    hide MarkRaises;
    Retries(c, s, p);
    RetriedAtSend(c, s, p);
    MarkRaised(c, Retried(c, s, p), s.nextJob, id);
    RunConcat(c, s, Retrying(c, s, p), MarkRaises(s.nextJob, id));
    hide Retried;
  }

  /** ARQ's next try finds the row and rejects the delivered post. */
  lemma RetryRejects(c: Config, s: State, p: PostId)
    requires p in s.queue && GatePasses(s, p) && s.posts[p].hash.Some? && s.posts[p].hash.value in s.rows
    ensures var t := Run(c, s, Entering(s, p) + [OfRun(s.nextJob, Advance)] + [OfRun(s.nextJob, Advance)]);
            p in t.posts && t.posts[p] == s.posts[p].(state := Rejected) && t.rows == s.rows && t.sends == s.sends
  {
    var j := s.nextJob;
    var two := [OfRun(j, Advance)] + [OfRun(j, Advance)];
    Enters(c, s, p);
    TakenHashRejects(c, Entered(s, p), j);
    RunConcat(c, s, Entering(s, p), two);
    assert Entering(s, p) + [OfRun(j, Advance)] + [OfRun(j, Advance)] == Entering(s, p) + two;
    hide Run;
    hide Step;
  }
}
