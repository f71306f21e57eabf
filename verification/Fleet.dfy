/**
 The per-host updater and the fleet of hosts running it. Each host resets its tree, writes
 the image tag, pulls, deploys and passes a health gate, or goes back; a canary then moves
 the `stable` branch that production hosts follow. Hosts interleave freely and a run can
 be cut off after any command.
 */
module Fleet {
  import opened Options

  type Commit = nat
  type HostId = nat

  datatype Role = Canary | Production
  datatype Branch = Main | Stable

  /** What the script does next; `target` and `prev` are its variables TARGET and PREV. */
  datatype Phase =
    | Idle
    | Moving(target: Commit, prev: Commit)
    | Tagging(target: Commit, prev: Commit)
    | Pulling(target: Commit, prev: Commit)
    | Reverting(prev: Commit)
    | RevertingTag(prev: Commit)
    | Deploying(target: Commit, prev: Commit)
    | Gating(target: Commit, prev: Commit)
    | Promoting(target: Commit)
    | Returning(prev: Commit)
    | ReturningTag(prev: Commit)
    | Repulling
    | Redeploying
    | Regating

  /** The tree's HEAD, IMAGE_TAG in `.env`, and the one tag all services run; none if they differ. */
  datatype Host = Host(role: Role, tracks: Branch, token: bool, head: Commit, tag: Option<Commit>,
                       running: Option<Commit>, phase: Phase)

  /** What a deploy that fails has brought to the tag by then: every service, some, or none more than before. */
  datatype Extent = Every | Partly | Nothing

  datatype Deploy = Works | Fails(restarted: Extent)

  /** What the services run after a deploy. */
  function After(running: Option<Commit>, tag: Option<Commit>, d: Deploy): Option<Commit> {
    if d.Works? || d.restarted.Every? then tag
    else if d.restarted.Nothing? || running == tag then running
    else None
  }

  /**
   What a command answers: the tracked commit after a fetch, success or failure, how the
   deploy went, or nothing at all.
   */
  datatype Answer = Fetched(target: Option<Commit>) | Done(ok: bool) | Deployed(result: Deploy) | Cut

  /**
   The effect of the next command of the script; under `set -e` a failed reset or tag write
   ends the run. A cut in the middle of a deploy is one that fails, then a cut.
   */
  function HostStep(h: Host, a: Answer): Host {
    match (h.phase, a)
    case (_, Cut) => h.(phase := Idle)
    case (Idle, Fetched(Some(target))) => if target == h.head then h else h.(phase := Moving(target, h.head))
    case (Moving(t, p), Done(true)) => h.(head := t, phase := Tagging(t, p))
    case (Tagging(t, p), Done(true)) => h.(tag := Some(t), phase := Pulling(t, p))
    case (Pulling(t, p), Done(ok)) => h.(phase := if ok then Deploying(t, p) else Reverting(p))
    case (Reverting(p), Done(true)) => h.(head := p, phase := RevertingTag(p))
    case (RevertingTag(p), Done(true)) => h.(tag := Some(p), phase := Idle)
    case (Deploying(t, p), Deployed(d)) => h.(running := After(h.running, h.tag, d), phase := Gating(t, p))
    case (Deploying(_, _), _) => h
    case (Gating(t, p), Done(true)) => h.(phase := if h.role == Canary && h.token then Promoting(t) else Idle)
    case (Gating(t, p), Done(false)) => h.(phase := Returning(p))
    case (Promoting(_), Done(_)) => h.(phase := Idle)
    case (Returning(p), Done(true)) => h.(head := p, phase := ReturningTag(p))
    case (ReturningTag(p), Done(true)) => h.(tag := Some(p), phase := Repulling)
    case (Repulling, Done(_)) => h.(phase := Redeploying)
    case (Redeploying, Deployed(d)) => h.(running := After(h.running, h.tag, d), phase := Regating)
    case (Redeploying, _) => h
    case (Regating, Done(_)) => h.(phase := Idle)
    case (Idle, _) => h
    case (_, Done(false)) => h.(phase := Idle)
    case (_, Fetched(_)) => h
    case (_, Deployed(_)) => h
  }

  function HostRun(h: Host, answers: seq<Answer>): Host
    decreases |answers|
  {
    if answers == [] then h else HostRun(HostStep(h, answers[0]), answers[1..])
  }

  lemma {:induction false} HostRunConcat(h: Host, a: seq<Answer>, b: seq<Answer>)
    ensures HostRun(h, a + b) == HostRun(HostRun(h, a), b)
    decreases |a|
  {
    if a == [] {
      assert a + b == b;
    } else {
      assert (a + b)[1..] == a[1..] + b;
      HostRunConcat(HostStep(h, a[0]), a[1..], b);
    }
  }

  // ---- One run of the script ----

  /** How the commands of one run that is not cut off answer; `tip` is what the tracked ref resolves to. */
  datatype Outcome = Outcome(fetches: bool, tip: Option<Commit>, pulls: bool, deploys: Deploy, healthy: bool,
                             pushed: bool, repulls: bool, redeploys: Deploy, recovers: bool)

  /** There is something to update to. */
  predicate Advances(h: Host, o: Outcome) {
    o.fetches && o.tip.Some? && o.tip.value != h.head
  }

  /** The new commit stays only if its images were there and the gate passed; the tag follows HEAD either way. */
  function Updated(h: Host, o: Outcome): Host {
    if !Advances(h, o) then h
    else if !o.pulls then h.(tag := Some(h.head))
    else
      var running := After(h.running, o.tip, o.deploys);
      if o.healthy then h.(head := o.tip.value, tag := o.tip, running := running)
      else h.(tag := Some(h.head), running := After(running, Some(h.head), o.redeploys))
  }

  function ExitStatus(h: Host, o: Outcome): nat {
    if (o.fetches && o.tip.None?) || (Advances(h, o) && o.pulls && !o.healthy) then 1 else 0
  }

  class Updater {
    const role: Role
    const tracks: Branch
    const token: bool
    var head: Commit
    var tag: Option<Commit>
    var running: Option<Commit>

    constructor (h: Host)
      requires h.phase == Idle
      ensures View() == h
    {
      role, tracks, token, head, tag, running := h.role, h.tracks, h.token, h.head, h.tag, h.running;
    }

    ghost function View(): Host
      reads this
    {
      Host(role, tracks, token, head, tag, running, Idle)
    }

    method GitReset(c: Commit)
      modifies this`head
      ensures head == c
    {
      head := c;
    }

    method WriteImageTag(c: Commit)
      modifies this`tag
      ensures tag == Some(c)
    {
      tag := Some(c);
    }

    /** The services restart from the tag in `.env`, all of them unless a command fails. */
    method Restart(d: Deploy)
      modifies this`running
      ensures running == After(old(running), tag, d)
    {
      if d.Works? || d.restarted.Every? {
        running := tag;
      } else if d.restarted.Partly? && running != tag {
        running := None;
      }
    }

    /** The script from the fetch to its exit. */
    method AutoUpdate(o: Outcome) returns (status: nat)
      modifies this
      ensures View() == Updated(old(View()), o)
      ensures status == ExitStatus(old(View()), o)
    {
      if !o.fetches {
        return 0;
      }
      if o.tip.None? {
        return 1;
      }
      var target, current := o.tip.value, head;
      if target == current {
        return 0;
      }
      var prev := current;
      GitReset(target);
      WriteImageTag(target);
      if !o.pulls {
        GitReset(prev);
        WriteImageTag(prev);
        return 0;
      }
      Restart(o.deploys);
      if o.healthy {
        return 0;
      }
      GitReset(prev);
      WriteImageTag(prev);
      Restart(o.redeploys);
      return 1;
    }
  }

  function Look(o: Outcome): Answer {
    Fetched(if o.fetches then o.tip else None)
  }

  /** The answers a run of that outcome gets, one per command. */
  function Answers(h: Host, o: Outcome): seq<Answer> {
    [Look(o)] + if !Advances(h, o) then [] else [Done(true), Done(true), Done(o.pulls)] + Rest(h, o)
  }

  function Rest(h: Host, o: Outcome): seq<Answer> {
    if !o.pulls then [Done(true), Done(true)] else [Deployed(o.deploys), Done(o.healthy)] + Ending(h, o)
  }

  function Ending(h: Host, o: Outcome): seq<Answer> {
    if !o.healthy then [Done(true), Done(true), Done(o.repulls), Deployed(o.redeploys), Done(o.recovers)]
    else if h.role == Canary && h.token then [Done(o.pushed)]
    else []
  }

  lemma NoSteps(h: Host)
    ensures HostRun(h, []) == h
  {
  }

  lemma OneStep(h: Host, a: Answer)
    ensures HostRun(h, [a]) == HostStep(h, a)
  {
    assert [a][1..] == [];
  }

  lemma TwoSteps(h: Host, a: Answer, b: Answer)
    ensures HostRun(h, [a, b]) == HostStep(HostStep(h, a), b)
  {
    assert [a, b][1..] == [b] && [b][1..] == [];
    assert HostRun(HostStep(h, a), [b]) == HostRun(HostStep(HostStep(h, a), b), []);
  }

  lemma ThreeSteps(h: Host, a: Answer, b: Answer, d: Answer)
    ensures HostRun(h, [a, b, d]) == HostStep(HostStep(HostStep(h, a), b), d)
  {
    assert [a, b, d][1..] == [b, d];
    TwoSteps(HostStep(h, a), b, d);
  }

  /** From the gate on: promotion and the exit, or the way back. */
  lemma EndingRun(h: Host, m: Host, o: Outcome)
    requires Advances(h, o)
    requires m == h.(head := o.tip.value, tag := o.tip, running := m.running,
                     phase := Gating(o.tip.value, h.head))
    ensures HostRun(HostStep(m, Done(o.healthy)), Ending(h, o))
         == if o.healthy then m.(phase := Idle)
            else h.(tag := Some(h.head), running := After(m.running, Some(h.head), o.redeploys), phase := Idle)
  {
    hide HostRun;
    var g := HostStep(m, Done(o.healthy));
    if !o.healthy {
      var back, again := [Done(true), Done(true), Done(o.repulls)], [Deployed(o.redeploys), Done(o.recovers)];
      assert Ending(h, o) == back + again;
      HostRunConcat(g, back, again);
      ThreeSteps(g, Done(true), Done(true), Done(o.repulls));
      var g' := g.(head := h.head, tag := Some(h.head), phase := Redeploying);
      assert HostRun(g, back) == g';
      TwoSteps(g', Deployed(o.redeploys), Done(o.recovers));
    } else {
      OneStep(g, Done(o.pushed));
      NoSteps(g);
    }
  }

  /** From the pull on. */
  lemma RestRun(h: Host, m: Host, o: Outcome)
    requires h.phase == Idle && Advances(h, o)
    requires m == h.(head := o.tip.value, tag := o.tip, phase := Pulling(o.tip.value, h.head))
    ensures HostRun(HostStep(m, Done(o.pulls)), Rest(h, o)) == Updated(h, o)
  {
    hide HostRun;
    hide Ending;
    var p := HostStep(m, Done(o.pulls));
    if o.pulls {
      HostRunConcat(p, [Deployed(o.deploys), Done(o.healthy)], Ending(h, o));
      TwoSteps(p, Deployed(o.deploys), Done(o.healthy));
      EndingRun(h, HostStep(p, Deployed(o.deploys)), o);
    } else {
      TwoSteps(p, Done(true), Done(true));
    }
  }

  /** The script is a run of the host's step relation: what a run leaves is what the steps leave. */
  lemma UpdatedIsRun(h: Host, o: Outcome)
    requires h.phase == Idle
    ensures HostRun(h, Answers(h, o)) == Updated(h, o)
  {
    hide HostRun;
    hide Rest;
    var f := HostStep(h, Look(o));
    OneStep(h, Look(o));
    if !Advances(h, o) {
      assert Answers(h, o) == [Look(o)];
    } else {
      var start := [Done(true), Done(true), Done(o.pulls)];
      HostRunConcat(h, [Look(o)], start + Rest(h, o));
      HostRunConcat(f, start, Rest(h, o));
      ThreeSteps(f, Done(true), Done(true), Done(o.pulls));
      RestRun(h, HostStep(HostStep(f, Done(true)), Done(true)), o);
    }
  }

  // ---- HEAD and IMAGE_TAG ----

  /** A run that is not cut off keeps HEAD and IMAGE_TAG together, and repairs them if it moves at all. */
  lemma RunAligns(h: Host, o: Outcome)
    ensures var u := Updated(h, o); u.tag == Some(u.head) <==> h.tag == Some(h.head) || Advances(h, o)
  {
  }

  /** It leaves the new commit in place exactly when the images were there and the gate passed; else HEAD is back. */
  lemma StaysIfGated(h: Host, o: Outcome)
    requires Advances(h, o)
    ensures Updated(h, o).head == o.tip.value <==> o.pulls && o.healthy
    ensures Updated(h, o).head != o.tip.value ==> Updated(h, o).head == h.head
  {
  }

  /** The unit fails exactly when the tracked ref is missing or the gate refused the new commit, which then is gone. */
  lemma ExitsOnFailure(h: Host, o: Outcome)
    ensures ExitStatus(h, o) == 1 <==>
              o.fetches && (o.tip.None? || (o.tip.value != h.head && o.pulls && !o.healthy))
    ensures ExitStatus(h, o) == 0 || ExitStatus(h, o) == 1
    ensures Advances(h, o) && ExitStatus(h, o) == 1 ==> Updated(h, o).head == h.head
    ensures Advances(h, o) && ExitStatus(h, o) == 0 ==> (Updated(h, o).head == o.tip.value <==> o.pulls)
  {
  }

  /** What the services run after a run that found something to do. */
  lemma ServicesFollow(h: Host, o: Outcome)
    requires Advances(h, o)
    ensures !o.pulls ==> Updated(h, o).running == h.running
    ensures o.pulls && o.healthy && o.deploys == Works ==> Updated(h, o).running == o.tip
    ensures o.pulls && !o.healthy && o.redeploys == Works ==> Updated(h, o).running == Some(h.head)
    ensures o.pulls && o.healthy && o.deploys == Fails(Every) ==> Updated(h, o).running == o.tip
    ensures o.pulls && o.healthy && o.deploys == Fails(Nothing) ==> Updated(h, o).running == h.running
    ensures o.pulls && o.healthy && o.deploys == Fails(Partly) ==>
              Updated(h, o).running == if h.running == o.tip then o.tip else None
    ensures o.pulls && !o.healthy && o.deploys == o.redeploys == Fails(Nothing) ==> Updated(h, o).running == h.running
  {
  }

  /** Between the reset and the tag write HEAD and IMAGE_TAG name different commits. */
  predicate InGap(p: Phase) {
    p.Tagging? || p.RevertingTag? || p.ReturningTag?
  }

  /** How HEAD and IMAGE_TAG stand at each point of a run that started with them together. */
  predicate Aligned(h: Host) {
    match h.phase
    case Tagging(t, p) => h.head == t && h.tag == Some(p) && t != p
    case Reverting(p) => h.tag == Some(h.head) && h.head != p
    case RevertingTag(p) => h.head == p && h.tag.Some? && h.tag.value != p
    case Returning(p) => h.tag == Some(h.head) && h.head != p
    case ReturningTag(p) => h.head == p && h.tag.Some? && h.tag.value != p
    case Moving(t, p) => h.tag == Some(h.head) && h.head == p && t != p
    case Pulling(t, p) => h.tag == Some(h.head) && h.head == t && t != p
    case Deploying(t, p) => h.tag == Some(h.head) && h.head == t && t != p
    case Gating(t, p) => h.tag == Some(h.head) && h.head == t && t != p
    case _ => h.tag == Some(h.head)
  }

  /** A step keeps the two in place, unless it ends the run in one of the gaps: then, and only then, they part. */
  lemma AlignedStep(h: Host, a: Answer)
    requires Aligned(h)
    ensures var n := HostStep(h, a);
            Aligned(n) <==> !(InGap(h.phase) && n.phase == Idle && (a == Cut || a == Done(false)))
  {
  }

  /** Answer `i` ends the run between a reset and its tag write. */
  predicate PartsAt(h: Host, answers: seq<Answer>, i: nat) {
    i < |answers| && (answers[i] == Cut || answers[i] == Done(false)) &&
    var before := HostRun(h, answers[..i]);
    Aligned(before) && InGap(before.phase) && HostStep(before, answers[i]).phase == Idle
  }

  /** Over any answers, HEAD and IMAGE_TAG of an aligned host part only where a run ends in such a gap. */
  lemma {:induction false} PartedInGap(h: Host, answers: seq<Answer>)
    requires Aligned(h) && !Aligned(HostRun(h, answers))
    ensures exists i: nat :: PartsAt(h, answers, i)
    decreases |answers|
  {
    var a, n, rest := answers[0], HostStep(h, answers[0]), answers[1..];
    AlignedStep(h, a);
    if Aligned(n) {
      PartedInGap(n, rest);
      var i: nat :| PartsAt(n, rest, i);
      assert answers[..i + 1][0] == a && answers[..i + 1][1..] == rest[..i];
      assert PartsAt(h, answers, i + 1);
    } else {
      assert answers[..0] == [];
      assert PartsAt(h, answers, 0);
    }
  }

  /** The ticks after a run, each run to its end. */
  function Ticks(h: Host, outcomes: seq<Outcome>): Host {
    if outcomes == [] then h else Updated(Ticks(h, outcomes[..|outcomes| - 1]), outcomes[|outcomes| - 1])
  }

  lemma {:induction false} TicksAlign(h: Host, outcomes: seq<Outcome>)
    requires h.tag != Some(h.head)
    ensures var t := Ticks(h, outcomes); var moved := exists i :: 0 <= i < |outcomes| && Advances(h, outcomes[i]);
            if moved then t.tag == Some(t.head) else t == h
  {
    if outcomes != [] {
      var rest, last := outcomes[..|outcomes| - 1], outcomes[|outcomes| - 1];
      TicksAlign(h, rest);
      RunAligns(Ticks(h, rest), last);
      if i :| 0 <= i < |rest| && Advances(h, rest[i]) { assert Advances(h, outcomes[i]); }
      if i :| 0 <= i < |outcomes| && Advances(h, outcomes[i]) { assert i < |rest| ==> Advances(h, rest[i]); }
      hide Updated;
      hide Advances;
    }
  }

  /**
   After a cut in a gap the ticks change nothing until one finds the branch away from HEAD,
   and from then on HEAD and IMAGE_TAG agree. After the forward reset HEAD is the branch, so
   that takes a move of the branch; after a reset back it is the first tick that sees the
   branch where it was.
   */
  lemma {:induction false} GapPersists(h: Host, outcomes: seq<Outcome>)
    requires Aligned(h) && InGap(h.phase)
    ensures var left := HostStep(h, Cut); var t := Ticks(left, outcomes);
            left.tag != Some(left.head) &&
            if exists i :: 0 <= i < |outcomes| && Advances(left, outcomes[i]) then t.tag == Some(t.head) else t == left
    ensures h.phase.Tagging? ==> forall o: Outcome :: o.tip == Some(h.phase.target) ==> !Advances(HostStep(h, Cut), o)
    ensures !h.phase.Tagging? ==> forall o: Outcome :: o.fetches && o.tip == h.tag ==> Advances(HostStep(h, Cut), o)
  {
    TicksAlign(HostStep(h, Cut), outcomes);
  }

  // ---- The fleet ----

  /** The remote branches, the hosts, and the commits on which some canary's gate has passed. */
  datatype State = State(main: Commit, stable: Option<Commit>, hosts: map<HostId, Host>, passed: set<Commit>)

  datatype Action =
    | Fetch(host: HostId, ok: bool)
    | Command(host: HostId, ok: bool)
    | Deployment(host: HostId, result: Deploy)
    | Crash(host: HostId)
    | PushMain(commit: Commit)
    | PushStable(commit: Commit) // by an operator or CI

  /** `git rev-parse` of the tracked branch just after a fetch. */
  function Tip(s: State, branch: Branch): Option<Commit> {
    match branch
    case Main => Some(s.main)
    case Stable => s.stable
  }

  /** A plain push: refused unless it moves the branch forward. `forward` is the commit graph's ancestry. */
  function Push(forward: (Commit, Commit) -> bool, stable: Option<Commit>, c: Commit): Option<Commit> {
    if stable.Some? && !forward(stable.value, c) then stable else Some(c)
  }

  /** A host's command is answered; a canary's passed gate is noted, and its push may move `stable`. */
  function Answered(forward: (Commit, Commit) -> bool, s: State, id: HostId, a: Answer): State {
    if id !in s.hosts then s
    else
      var h := s.hosts[id];
      var moved := s.(hosts := s.hosts[id := HostStep(h, a)]);
      match (h.phase, a)
      case (Gating(t, _), Done(true)) => if h.role == Canary then moved.(passed := s.passed + {t}) else moved
      case (Promoting(t), Done(true)) => moved.(stable := Push(forward, s.stable, t))
      case _ => moved
  }

  function Step(forward: (Commit, Commit) -> bool, s: State, a: Action): State {
    match a
    case PushMain(c) => s.(main := c)
    case PushStable(c) => s.(stable := Push(forward, s.stable, c))
    case Fetch(id, ok) =>
      if id in s.hosts then Answered(forward, s, id, Fetched(if ok then Tip(s, s.hosts[id].tracks) else None)) else s
    case Command(id, ok) => Answered(forward, s, id, Done(ok))
    case Deployment(id, result) => Answered(forward, s, id, Deployed(result))
    case Crash(id) => Answered(forward, s, id, Cut)
  }

  function Run(forward: (Commit, Commit) -> bool, s: State, trace: seq<Action>): State
    decreases |trace|
  {
    if trace == [] then s else Run(forward, Step(forward, s, trace[0]), trace[1..])
  }

  lemma {:induction false} RunConcat(forward: (Commit, Commit) -> bool, s: State, a: seq<Action>, b: seq<Action>)
    ensures Run(forward, s, a + b) == Run(forward, Run(forward, s, a), b)
    decreases |a|
  {
    hide Step;
    if a == [] {
      assert a + b == b;
    } else {
      assert (a + b)[1..] == a[1..] + b;
      RunConcat(forward, Step(forward, s, a[0]), a[1..], b);
    }
  }

  /** Operators move `stable` only to commits that have passed. */
  predicate Careful(s: State, a: Action) {
    a.PushStable? ==> a.commit in s.passed
  }

  predicate CarefulRun(forward: (Commit, Commit) -> bool, s: State, trace: seq<Action>)
    decreases |trace|
  {
    trace == [] || (Careful(s, trace[0]) && CarefulRun(forward, Step(forward, s, trace[0]), trace[1..]))
  }

  /** In `base`, the commits in use when the fleet was set up, or passed by a canary since. */
  predicate Vetted(base: set<Commit>, s: State, c: Commit) {
    c in base || c in s.passed
  }

  /** Every commit the host is at, heading for, or may go back to. */
  predicate HostVetted(base: set<Commit>, s: State, h: Host) {
    && Vetted(base, s, h.head)
    && (h.tag.Some? ==> Vetted(base, s, h.tag.value))
    && (h.running.Some? ==> Vetted(base, s, h.running.value))
    && match h.phase
       case Moving(t, p) => Vetted(base, s, t) && Vetted(base, s, p)
       case Tagging(t, p) => Vetted(base, s, t) && Vetted(base, s, p)
       case Pulling(t, p) => Vetted(base, s, t) && Vetted(base, s, p)
       case Deploying(t, p) => Vetted(base, s, t) && Vetted(base, s, p)
       case Gating(t, p) => Vetted(base, s, t) && Vetted(base, s, p)
       case Reverting(p) => Vetted(base, s, p)
       case RevertingTag(p) => Vetted(base, s, p)
       case Returning(p) => Vetted(base, s, p)
       case ReturningTag(p) => Vetted(base, s, p)
       case _ => true
  }

  /** Production hosts follow `stable`; it and all they touch is vetted; only passed commits await promotion. */
  predicate Safe(base: set<Commit>, s: State) {
    && (s.stable.Some? ==> Vetted(base, s, s.stable.value))
    && (forall id :: id in s.hosts ==> HostSafe(base, s, s.hosts[id]))
  }

  predicate HostSafe(base: set<Commit>, s: State, h: Host) {
    && (h.role == Production ==> h.tracks == Stable && HostVetted(base, s, h))
    && (h.phase.Promoting? ==> h.role == Canary && h.phase.target in s.passed)
  }

  lemma HostVettedStep(base: set<Commit>, s: State, h: Host, a: Answer)
    requires HostVetted(base, s, h)
    requires a.Fetched? && a.target.Some? ==> Vetted(base, s, a.target.value)
    ensures HostVetted(base, s, HostStep(h, a))
  {
    hide Vetted;
  }

  lemma HostVettedStays(base: set<Commit>, s: State, t: State, h: Host)
    requires HostVetted(base, s, h) && s.passed <= t.passed
    ensures HostVetted(base, t, h)
  {
  }

  lemma PromotingStep(h: Host, a: Answer)
    ensures var n := HostStep(h, a); n.role == h.role && n.tracks == h.tracks
    ensures var n := HostStep(h, a); n.phase.Promoting? ==>
      || n.phase == h.phase
      || (h.phase.Gating? && a == Done(true) && h.role == Canary && n.phase.target == h.phase.target)
  {
  }

  lemma HostSafeStep(base: set<Commit>, s: State, t: State, h: Host, a: Answer)
    requires HostSafe(base, s, h) && s.passed <= t.passed
    requires a.Fetched? && a.target.Some? && h.role == Production ==> Vetted(base, s, a.target.value)
    requires h.phase.Gating? && a == Done(true) && h.role == Canary ==> h.phase.target in t.passed
    ensures HostSafe(base, t, HostStep(h, a))
  {
    PromotingStep(h, a);
    if h.role == Production {
      HostVettedStep(base, s, h, a);
      HostVettedStays(base, s, t, HostStep(h, a));
    }
    hide HostStep;
    hide HostVetted;
  }

  lemma AnsweredSafe(forward: (Commit, Commit) -> bool, base: set<Commit>, s: State, id: HostId, a: Answer)
    requires Safe(base, s) && id in s.hosts
    requires a.Fetched? && a.target.Some? ==> a.target == Tip(s, s.hosts[id].tracks)
    ensures Safe(base, Answered(forward, s, id, a))
  {
    var t := Answered(forward, s, id, a);
    assert HostSafe(base, s, s.hosts[id]);
    HostSafeStep(base, s, t, s.hosts[id], a);
    hide HostStep;
    forall other | other in t.hosts && other != id
      ensures HostSafe(base, t, t.hosts[other])
    {
      assert HostSafe(base, s, s.hosts[other]);
    }
  }

  lemma SafeStep(forward: (Commit, Commit) -> bool, base: set<Commit>, s: State, a: Action)
    requires Safe(base, s) && Careful(s, a)
    ensures Safe(base, Step(forward, s, a))
  {
    hide Answered;
    match a
    case Fetch(id, ok) =>
      if id in s.hosts {
        AnsweredSafe(forward, base, s, id, Fetched(if ok then Tip(s, s.hosts[id].tracks) else None));
      }
    case Command(id, ok) =>
      CommandSafe(forward, base, s, id, Done(ok));
    case Deployment(id, result) =>
      CommandSafe(forward, base, s, id, Deployed(result));
    case Crash(id) =>
      CommandSafe(forward, base, s, id, Cut);
    case PushMain(c) =>
      SameHosts(base, s, Step(forward, s, a));
    case PushStable(c) =>
      SameHosts(base, s, Step(forward, s, a));
  }

  lemma CommandSafe(forward: (Commit, Commit) -> bool, base: set<Commit>, s: State, id: HostId, a: Answer)
    requires Safe(base, s) && !a.Fetched?
    ensures Safe(base, Answered(forward, s, id, a))
  {
    if id in s.hosts {
      AnsweredSafe(forward, base, s, id, a);
    }
  }

  lemma SameHosts(base: set<Commit>, s: State, t: State)
    requires Safe(base, s) && t.hosts == s.hosts && t.passed == s.passed
    ensures forall id :: id in t.hosts ==> HostSafe(base, t, t.hosts[id])
  {
    forall id | id in t.hosts
      ensures HostSafe(base, t, t.hosts[id])
    {
      assert HostSafe(base, s, s.hosts[id]);
    }
  }

  lemma {:induction false} SafeRun(forward: (Commit, Commit) -> bool, base: set<Commit>, s: State, trace: seq<Action>)
    requires Safe(base, s) && CarefulRun(forward, s, trace)
    ensures Safe(base, Run(forward, s, trace))
    decreases |trace|
  {
    hide Safe;
    hide Careful;
    if trace != [] {
      SafeStep(forward, base, s, trace[0]);
      SafeRun(forward, base, Step(forward, s, trace[0]), trace[1..]);
    }
  }

  /** A fleet just set up: nothing running, production hosts following `stable`, its commits listed in `base`. */
  predicate SetUp(base: set<Commit>, s: State) {
    && (s.stable.Some? ==> s.stable.value in base)
    && forall id :: id in s.hosts ==> HostSetUp(base, s.hosts[id])
  }

  predicate HostSetUp(base: set<Commit>, h: Host) {
    && h.phase == Idle
    && (h.role == Production ==>
          && h.tracks == Stable && h.head in base
          && (h.tag.Some? ==> h.tag.value in base) && (h.running.Some? ==> h.running.value in base))
  }

  /** Whatever crashes and however runs interleave, `stable` and production only ever hold vetted commits. */
  lemma ProductionVetted(forward: (Commit, Commit) -> bool, base: set<Commit>, s: State, trace: seq<Action>)
    requires SetUp(base, s) && CarefulRun(forward, s, trace)
    ensures var t := Run(forward, s, trace);
      && (t.stable.Some? ==> Vetted(base, t, t.stable.value))
      && (forall id :: id in t.hosts && t.hosts[id].role == Production ==>
            && Vetted(base, t, t.hosts[id].head)
            && (t.hosts[id].running.Some? ==> Vetted(base, t, t.hosts[id].running.value)))
  {
    assert Safe(base, s) by {
      forall id | id in s.hosts
        ensures HostSafe(base, s, s.hosts[id])
      {
        assert HostSetUp(base, s.hosts[id]);
      }
    }
    SafeRun(forward, base, s, trace);
    var t := Run(forward, s, trace);
    forall id | id in t.hosts && t.hosts[id].role == Production
      ensures HostVetted(base, t, t.hosts[id])
    {
      assert HostSafe(base, t, t.hosts[id]);
    }
  }

  /** Once the tree and the tag have been moved to the new commit they name it until the gate has answered. */
  predicate InPlace(h: Host) {
    match h.phase
    case Tagging(t, _) => h.head == t
    case Pulling(t, _) => h.head == t && h.tag == Some(t)
    case Deploying(t, _) => h.head == t && h.tag == Some(t)
    case Gating(t, _) => h.head == t && h.tag == Some(t)
    case _ => true
  }

  predicate AllInPlace(s: State) {
    forall id :: id in s.hosts ==> InPlace(s.hosts[id])
  }

  lemma InPlaceStep(forward: (Commit, Commit) -> bool, s: State, a: Action)
    requires AllInPlace(s)
    ensures AllInPlace(Step(forward, s, a))
  {
    forall id | id in s.hosts
      ensures InPlace(Step(forward, s, a).hosts[id])
    {
      assert InPlace(s.hosts[id]);
    }
  }

  /** Action `i` of the run is a canary's gate passing on `c`, with its tree and tag at `c`. */
  predicate GatePasses(forward: (Commit, Commit) -> bool, s: State, trace: seq<Action>, i: nat, c: Commit)
    requires i < |trace|
  {
    var a, before := trace[i], Run(forward, s, trace[..i]);
    && a.Command? && a.ok && a.host in before.hosts
    && var h := before.hosts[a.host];
    && h.role == Canary && h.phase.Gating? && h.phase.target == c && h.head == c && h.tag == Some(c)
  }

  /** A commit counts as passed only through a canary's gate. */
  lemma {:induction false} PassedAtGate(forward: (Commit, Commit) -> bool, s: State, trace: seq<Action>, c: Commit)
    returns (i: nat)
    requires AllInPlace(s) && c in Run(forward, s, trace).passed && c !in s.passed
    ensures i < |trace| && GatePasses(forward, s, trace, i, c)
    decreases |trace|
  {
    var n := Step(forward, s, trace[0]);
    if c in n.passed {
      i := 0;
      assert trace[..0] == [];
      var id := trace[0].host;
      assert InPlace(s.hosts[id]);
    } else {
      InPlaceStep(forward, s, trace[0]);
      var j := PassedAtGate(forward, n, trace[1..], c);
      i := j + 1;
      assert trace[..i] == [trace[0]] + trace[1..][..j];
      assert trace[..i][1..] == trace[1..][..j];
    }
  }

  // ---- `stable` only moves forward ----

  ghost predicate Ancestry(forward: (Commit, Commit) -> bool) {
    && (forall a :: forward(a, a))
    && (forall a, b, c :: forward(a, b) && forward(b, c) ==> forward(a, c))
  }

  /** Promotions and pushes never take `stable` off its own line of descent. */
  lemma {:induction false} StableMovesForward(forward: (Commit, Commit) -> bool, s: State, trace: seq<Action>)
    requires Ancestry(forward) && s.stable.Some?
    ensures var t := Run(forward, s, trace); t.stable.Some? && forward(s.stable.value, t.stable.value)
    decreases |trace|
  {
    if trace != [] {
      var n := Step(forward, s, trace[0]);
      StableMovesForward(forward, n, trace[1..]);
      assert forward(s.stable.value, n.stable.value);
    }
  }

  // ---- What a passed gate saw ----

  /** The gate of action `i` passed on `c` while the canary's services ran `c`. */
  predicate GateRuns(forward: (Commit, Commit) -> bool, s: State, trace: seq<Action>, i: nat, c: Commit) {
    i < |trace| && GatePasses(forward, s, trace, i, c) &&
    Run(forward, s, trace[..i]).hosts[trace[i].host].running == Some(c)
  }

  /** The services are not all on the tag after this deploy. */
  predicate LeavesBehind(h: Host, d: Deploy) {
    After(h.running, h.tag, d) != h.tag
  }

  /** This action is not a canary's deploy that leaves services behind. */
  predicate DeployWorks(s: State, a: Action) {
    a.Deployment? && a.host in s.hosts && s.hosts[a.host].role == Canary && s.hosts[a.host].phase.Deploying? ==>
      !LeavesBehind(s.hosts[a.host], a.result)
  }

  predicate DeploysWork(forward: (Commit, Commit) -> bool, s: State, trace: seq<Action>)
    decreases |trace|
  {
    trace == [] || (DeployWorks(s, trace[0]) && DeploysWork(forward, Step(forward, s, trace[0]), trace[1..]))
  }

  predicate RunsTarget(h: Host) {
    h.role == Canary && h.phase.Gating? ==> h.running == Some(h.phase.target)
  }

  predicate AllRunTarget(s: State) {
    forall id :: id in s.hosts ==> RunsTarget(s.hosts[id])
  }

  lemma RunsTargetAnswered(h: Host, a: Answer)
    requires InPlace(h) && RunsTarget(h)
    requires h.role == Canary && h.phase.Deploying? && a.Deployed? ==> !LeavesBehind(h, a.result)
    ensures RunsTarget(HostStep(h, a))
  {
  }

  /** Action `a` took host `id` from `h` to `g` with this answer. */
  predicate SteppedBy(h: Host, g: Host, a: Action, id: HostId, answer: Answer) {
    g == HostStep(h, answer) && (answer.Done? ==> a == Command(id, answer.ok)) &&
    (answer.Deployed? ==> a == Deployment(id, answer.result))
  }

  /** One action steps at most the host it names, with one answer. */
  lemma OneHostSteps(forward: (Commit, Commit) -> bool, s: State, a: Action, id: HostId)
    requires id in s.hosts
    ensures var t := Step(forward, s, a);
      id in t.hosts &&
      (t.hosts[id] == s.hosts[id] || exists answer :: SteppedBy(s.hosts[id], t.hosts[id], a, id, answer))
  {
    match a
    case PushMain(_) =>
    case PushStable(_) =>
    case Fetch(other, ok) =>
      var answer := Fetched(if ok && other in s.hosts then Tip(s, s.hosts[other].tracks) else None);
      assert other == id ==> SteppedBy(s.hosts[id], Step(forward, s, a).hosts[id], a, id, answer);
    case Command(other, ok) =>
      assert other == id ==> SteppedBy(s.hosts[id], Step(forward, s, a).hosts[id], a, id, Done(ok));
    case Deployment(other, result) =>
      assert other == id ==> SteppedBy(s.hosts[id], Step(forward, s, a).hosts[id], a, id, Deployed(result));
    case Crash(other) =>
      assert other == id ==> SteppedBy(s.hosts[id], Step(forward, s, a).hosts[id], a, id, Cut);
  }

  lemma RunsTargetStep(forward: (Commit, Commit) -> bool, s: State, a: Action)
    requires AllInPlace(s) && AllRunTarget(s) && DeployWorks(s, a)
    ensures AllRunTarget(Step(forward, s, a))
  {
    forall id | id in s.hosts
      ensures RunsTarget(Step(forward, s, a).hosts[id])
    {
      OneHostSteps(forward, s, a, id);
      assert InPlace(s.hosts[id]) && RunsTarget(s.hosts[id]);
      var h := Step(forward, s, a).hosts[id];
      if h != s.hosts[id] {
        var answer :| SteppedBy(s.hosts[id], h, a, id, answer);
        RunsTargetAnswered(s.hosts[id], answer);
      }
    }
    hide HostStep;
  }

  /** When no canary's deploy leaves services behind, a commit passes only at the gate of a canary running it. */
  lemma {:induction false} PassedWhileRunning(forward: (Commit, Commit) -> bool, s: State, trace: seq<Action>,
                                              c: Commit)
    returns (i: nat)
    requires AllInPlace(s) && AllRunTarget(s) && DeploysWork(forward, s, trace)
    requires c in Run(forward, s, trace).passed && c !in s.passed
    ensures GateRuns(forward, s, trace, i, c)
    decreases |trace|
  {
    var a, n := trace[0], Step(forward, s, trace[0]);
    if c in n.passed {
      i := 0;
      assert trace[..0] == [];
      assert InPlace(s.hosts[a.host]) && RunsTarget(s.hosts[a.host]);
    } else {
      InPlaceStep(forward, s, a);
      RunsTargetStep(forward, s, a);
      var j := PassedWhileRunning(forward, n, trace[1..], c);
      i := j + 1;
      assert trace[..i][0] == a && trace[..i][1..] == trace[1..][..j];
    }
  }

  /** In `base` from the start, passed before, or passed in this run by a canary running it. */
  ghost predicate Proven(forward: (Commit, Commit) -> bool, base: set<Commit>, s: State, trace: seq<Action>,
                         c: Commit)
  {
    c in base || c in s.passed || exists i: nat :: GateRuns(forward, s, trace, i, c)
  }

  lemma SetUpInPlace(base: set<Commit>, s: State)
    requires SetUp(base, s)
    ensures AllInPlace(s) && AllRunTarget(s)
  {
    forall id | id in s.hosts
      ensures InPlace(s.hosts[id]) && RunsTarget(s.hosts[id])
    {
      assert HostSetUp(base, s.hosts[id]);
    }
  }

  lemma VettedProven(forward: (Commit, Commit) -> bool, base: set<Commit>, s: State, trace: seq<Action>, c: Commit)
    requires SetUp(base, s) && DeploysWork(forward, s, trace) && Vetted(base, Run(forward, s, trace), c)
    ensures Proven(forward, base, s, trace, c)
  {
    if c !in base && c !in s.passed {
      SetUpInPlace(base, s);
      var i := PassedWhileRunning(forward, s, trace, c);
    }
  }

  /**
   When no canary's deploy leaves services behind, whatever deploys do on production,
   `stable` and production only ever hold initial commits and commits that a canary's
   services were running when its gate passed.
   */
  lemma ProductionProven(forward: (Commit, Commit) -> bool, base: set<Commit>, s: State, trace: seq<Action>)
    requires SetUp(base, s) && CarefulRun(forward, s, trace) && DeploysWork(forward, s, trace)
    ensures var t := Run(forward, s, trace);
      && (t.stable.Some? ==> Proven(forward, base, s, trace, t.stable.value))
      && (forall id :: id in t.hosts && t.hosts[id].role == Production ==>
            && Proven(forward, base, s, trace, t.hosts[id].head)
            && (t.hosts[id].running.Some? ==> Proven(forward, base, s, trace, t.hosts[id].running.value)))
  {
    ProductionVetted(forward, base, s, trace);
    var t := Run(forward, s, trace);
    if t.stable.Some? { VettedProven(forward, base, s, trace, t.stable.value); }
    forall id | id in t.hosts && t.hosts[id].role == Production
      ensures Proven(forward, base, s, trace, t.hosts[id].head)
      ensures t.hosts[id].running.Some? ==> Proven(forward, base, s, trace, t.hosts[id].running.value)
    {
      VettedProven(forward, base, s, trace, t.hosts[id].head);
      if t.hosts[id].running.Some? { VettedProven(forward, base, s, trace, t.hosts[id].running.value); }
    }
    hide Proven;
    hide Run;
  }

  /** Action `n` is a deploy of `id` that leaves services on another commit. */
  predicate FailedDeploy(forward: (Commit, Commit) -> bool, s: State, trace: seq<Action>, n: nat, id: HostId) {
    n < |trace| && trace[n].Deployment? && trace[n].host == id && trace[n].result.Fails? &&
    var before := Run(forward, s, trace[..n]);
    id in before.hosts && before.hosts[id].phase.Deploying? && LeavesBehind(before.hosts[id], trace[n].result)
  }

  /** The host stands, after the whole trace, as that deploy left it. */
  predicate LeftBy(forward: (Commit, Commit) -> bool, s: State, trace: seq<Action>, n: nat, id: HostId) {
    FailedDeploy(forward, s, trace, n, id) &&
    var t, u := Run(forward, s, trace), Run(forward, s, trace[..n + 1]);
    id in t.hosts && id in u.hosts && t.hosts[id] == u.hosts[id]
  }

  lemma {:induction false} InPlaceRun(forward: (Commit, Commit) -> bool, s: State, trace: seq<Action>)
    requires AllInPlace(s)
    ensures AllInPlace(Run(forward, s, trace)) && Run(forward, s, trace).hosts.Keys == s.hosts.Keys
    decreases |trace|
  {
    if trace != [] {
      InPlaceStep(forward, s, trace[0]);
      KeysStay(forward, s, trace[0]);
      InPlaceRun(forward, Step(forward, s, trace[0]), trace[1..]);
    }
    hide Step;
  }

  lemma KeysStay(forward: (Commit, Commit) -> bool, s: State, a: Action)
    ensures Step(forward, s, a).hosts.Keys == s.hosts.Keys
  {
    hide HostStep;
  }

  lemma RunLast(forward: (Commit, Commit) -> bool, s: State, trace: seq<Action>)
    requires trace != []
    ensures Run(forward, s, trace) == Step(forward, Run(forward, s, trace[..|trace| - 1]), trace[|trace| - 1])
  {
    var rest, last := trace[..|trace| - 1], trace[|trace| - 1];
    assert trace == rest + [last] && [last][1..] == [];
    RunConcat(forward, s, rest, [last]);
    assert Run(forward, Run(forward, s, rest), [last]) == Run(forward, Step(forward, Run(forward, s, rest), last), []);
  }

  /** The host is at its gate and its services do not all run the commit under test. */
  predicate Stale(h: Host) {
    h.phase.Gating? && h.running != Some(h.phase.target)
  }

  /** A host reaches its gate on other services only by a deploy that failed. */
  lemma EntersStale(h: Host, a: Answer)
    requires InPlace(h) && HostStep(h, a) != h
    requires Stale(HostStep(h, a))
    ensures a.Deployed? && a.result.Fails? && h.phase.Deploying? && LeavesBehind(h, a.result)
  {
  }

  lemma {:induction false} StaleFrom(forward: (Commit, Commit) -> bool, s: State, trace: seq<Action>, id: HostId)
    returns (n: nat)
    requires AllInPlace(s) && id in s.hosts && !s.hosts[id].phase.Gating? && id in Run(forward, s, trace).hosts
    requires Stale(Run(forward, s, trace).hosts[id])
    ensures LeftBy(forward, s, trace, n, id)
    decreases |trace|
  {
    var rest, last := trace[..|trace| - 1], trace[|trace| - 1];
    var before := Run(forward, s, rest);
    RunLast(forward, s, trace);
    InPlaceRun(forward, s, rest);
    OneHostSteps(forward, before, last, id);
    assert InPlace(before.hosts[id]);
    hide HostStep;
    hide Step;
    if Run(forward, s, trace).hosts[id] == before.hosts[id] {
      n := StaleFrom(forward, s, rest, id);
      assert trace[..n] == rest[..n] && trace[..n + 1] == rest[..n + 1];
    } else {
      var answer :| SteppedBy(before.hosts[id], Run(forward, s, trace).hosts[id], last, id, answer);
      EntersStale(before.hosts[id], answer);
      n := |trace| - 1;
      assert trace[..n + 1] == trace;
    }
  }

  lemma FailedDeployStale(h: Host, d: Deploy)
    requires InPlace(h) && h.phase.Deploying? && LeavesBehind(h, d)
    ensures Stale(HostStep(h, Deployed(d)))
  {
  }

  /**
   In every run a host stands at its gate with services not all of the commit under test
   exactly when a deploy failed and left some behind and nothing has moved the host since.
   */
  lemma StaleGateExactly(forward: (Commit, Commit) -> bool, s: State, trace: seq<Action>, id: HostId)
    requires AllInPlace(s) && id in s.hosts && !s.hosts[id].phase.Gating?
    ensures id in Run(forward, s, trace).hosts
    ensures Stale(Run(forward, s, trace).hosts[id]) <==> exists n: nat :: LeftBy(forward, s, trace, n, id)
  {
    InPlaceRun(forward, s, trace);
    var t := Run(forward, s, trace);
    if Stale(t.hosts[id]) {
      var n := StaleFrom(forward, s, trace, id);
    }
    if n: nat :| LeftBy(forward, s, trace, n, id) {
      LeftStale(forward, s, trace, n, id);
    }
  }

  lemma LeftStale(forward: (Commit, Commit) -> bool, s: State, trace: seq<Action>, n: nat, id: HostId)
    requires AllInPlace(s) && LeftBy(forward, s, trace, n, id)
    ensures Stale(Run(forward, s, trace).hosts[id])
  {
    var before := Run(forward, s, trace[..n]);
    InPlaceRun(forward, s, trace[..n]);
    assert InPlace(before.hosts[id]);
    RunLast(forward, s, trace[..n + 1]);
    assert trace[..n + 1][..n] == trace[..n];
    hide Run;
    assert Run(forward, s, trace[..n + 1]).hosts[id] == HostStep(before.hosts[id], Deployed(trace[n].result));
    FailedDeployStale(before.hosts[id], trace[n].result);
    hide HostStep;
  }

  /** A canary heading for commit 2 with the services of commit 1. */
  function CanaryAt(head: Commit, phase: Phase): Host {
    Host(Canary, Main, true, head, Some(head), Some(1), phase)
  }

  function FleetAt(canary: Host, passed: set<Commit>): State {
    State(2, Some(1), map[0 := canary], passed)
  }

  lemma MovesTree(forward: (Commit, Commit) -> bool)
    ensures Run(forward, FleetAt(CanaryAt(1, Idle), {}), [Fetch(0, true), Command(0, true), Command(0, true)])
         == FleetAt(CanaryAt(2, Pulling(2, 1)), {})
  {
    var s, up := FleetAt(CanaryAt(1, Idle), {}), Command(0, true);
    ThreeActions(forward, s, Fetch(0, true), up, up);
    var s1 := Step(forward, s, Fetch(0, true));
    assert s1 == FleetAt(CanaryAt(1, Moving(2, 1)), {});
    assert Step(forward, Step(forward, s1, up), up) == FleetAt(CanaryAt(2, Pulling(2, 1)), {});
    hide Run;
  }

  lemma PassesUnrun(forward: (Commit, Commit) -> bool)
    ensures var up := Command(0, true);
      Run(forward, FleetAt(CanaryAt(2, Pulling(2, 1)), {}), [up, Deployment(0, Fails(Nothing)), up])
      == FleetAt(CanaryAt(2, Promoting(2)), {2})
  {
    var s, up, down := FleetAt(CanaryAt(2, Pulling(2, 1)), {}), Command(0, true), Deployment(0, Fails(Nothing));
    ThreeActions(forward, s, up, down, up);
    var s1 := Step(forward, s, up);
    assert s1 == FleetAt(CanaryAt(2, Deploying(2, 1)), {});
    var s2 := Step(forward, s1, down);
    assert s2 == FleetAt(CanaryAt(2, Gating(2, 1)), {});
    assert Step(forward, s2, up) == FleetAt(CanaryAt(2, Promoting(2)), {2});
    hide Run;
  }

  /** A failed deploy is only warned about, so a gate passed by the old services promotes a commit nobody ran. */
  lemma PromotedUnrun(forward: (Commit, Commit) -> bool)
    requires forward(1, 2)
    ensures var s := FleetAt(CanaryAt(1, Idle), {});
      var up, down := Command(0, true), Deployment(0, Fails(Nothing));
      var t := Run(forward, s, [Fetch(0, true), up, up, up, down, up, up]);
      t.stable == Some(2) && 0 in t.hosts && t.hosts[0].running == Some(1)
  {
    var s := FleetAt(CanaryAt(1, Idle), {});
    var up, down := Command(0, true), Deployment(0, Fails(Nothing));
    var first, second := [Fetch(0, true), up, up], [up, down, up];
    MovesTree(forward);
    PassesUnrun(forward);
    RunConcat(forward, s, first, second);
    RunConcat(forward, s, first + second, [up]);
    var t := FleetAt(CanaryAt(2, Promoting(2)), {2});
    assert Run(forward, t, [up]) == Step(forward, t, up) by {
      assert [up][1..] == [];
    }
    assert first + second + [up] == [Fetch(0, true), up, up, up, down, up, up];
    hide Run;
  }

  lemma ThreeActions(forward: (Commit, Commit) -> bool, s: State, a: Action, b: Action, c: Action)
    ensures Run(forward, s, [a, b, c]) == Step(forward, Step(forward, Step(forward, s, a), b), c)
  {
    hide Step;
    assert [a, b, c][1..] == [b, c] && [b, c][1..] == [c] && [c][1..] == [];
    var t := Step(forward, Step(forward, s, a), b);
    assert Run(forward, t, [c]) == Step(forward, t, c);
  }

  // ---- A rollout in which nothing fails ----

  /** One host's tick, every command succeeding, up to the gate's answer. */
  function Ticking(id: HostId): seq<Action> {
    [Fetch(id, true), Command(id, true), Command(id, true)] +
    [Command(id, true), Deployment(id, Works), Command(id, true)]
  }

  function WithHost(s: State, id: HostId, h: Host): State {
    s.(hosts := s.hosts[id := h])
  }

  /** The host runs the tracked commit; a canary has noted it as passed, and pushes if it may. */
  function Ticked(s: State, id: HostId, t: Commit): State
    requires id in s.hosts
  {
    var h := s.hosts[id];
    WithHost(s, id, Host(h.role, h.tracks, h.token, t, Some(t), Some(t),
                         if h.role == Canary && h.token then Promoting(t) else Idle))
    .(passed := if h.role == Canary then s.passed + {t} else s.passed)
  }

  lemma TicksToPull(forward: (Commit, Commit) -> bool, s: State, id: HostId, t: Commit)
    requires id in s.hosts && s.hosts[id].phase == Idle
    requires Tip(s, s.hosts[id].tracks) == Some(t) && t != s.hosts[id].head
    ensures var h := s.hosts[id];
      Run(forward, s, [Fetch(id, true), Command(id, true), Command(id, true)])
      == WithHost(s, id, h.(head := t, tag := Some(t), phase := Pulling(t, h.head)))
  {
    var h := s.hosts[id];
    ThreeActions(forward, s, Fetch(id, true), Command(id, true), Command(id, true));
    var s1 := Step(forward, s, Fetch(id, true));
    assert s1 == WithHost(s, id, h.(phase := Moving(t, h.head)));
    var s2 := Step(forward, s1, Command(id, true));
    assert s2 == WithHost(s, id, h.(head := t, phase := Tagging(t, h.head)));
    assert Step(forward, s2, Command(id, true))
        == WithHost(s, id, h.(head := t, tag := Some(t), phase := Pulling(t, h.head)));
    hide Run;
  }

  lemma TicksFromPull(forward: (Commit, Commit) -> bool, s: State, id: HostId, h: Host, t: Commit, p: Commit)
    requires h.head == t && h.tag == Some(t) && h.phase == Pulling(t, p)
    ensures Run(forward, WithHost(s, id, h), [Command(id, true), Deployment(id, Works), Command(id, true)])
         == Ticked(WithHost(s, id, h), id, t)
  {
    var s0 := WithHost(s, id, h);
    ThreeActions(forward, s0, Command(id, true), Deployment(id, Works), Command(id, true));
    var s1 := Step(forward, s0, Command(id, true));
    assert s1 == WithHost(s, id, h.(phase := Deploying(t, p)));
    var s2 := Step(forward, s1, Deployment(id, Works));
    assert s2 == WithHost(s, id, h.(running := Some(t), phase := Gating(t, p)));
    assert Step(forward, s2, Command(id, true)) == Ticked(s0, id, t);
    hide Run;
  }

  lemma TicksThrough(forward: (Commit, Commit) -> bool, s: State, id: HostId, t: Commit)
    requires id in s.hosts && s.hosts[id].phase == Idle
    requires Tip(s, s.hosts[id].tracks) == Some(t) && t != s.hosts[id].head
    ensures Run(forward, s, Ticking(id)) == Ticked(s, id, t)
  {
    var h := s.hosts[id];
    var m := h.(head := t, tag := Some(t), phase := Pulling(t, h.head));
    TicksToPull(forward, s, id, t);
    TicksFromPull(forward, s, id, m, t, h.head);
    RunConcat(forward, s, [Fetch(id, true), Command(id, true), Command(id, true)],
              [Command(id, true), Deployment(id, Works), Command(id, true)]);
    assert Ticked(WithHost(s, id, m), id, t) == Ticked(s, id, t);
    hide Run;
    hide Step;
  }

  /**
   A rollout: the canary takes the tip of main, passes its gate and pushes; the next tick of
   a production host takes it from stable, provided the push moves stable forward.
   */
  lemma RolloutReaches(forward: (Commit, Commit) -> bool, s: State, canary: HostId, host: HostId)
    requires canary in s.hosts && host in s.hosts && canary != host
    requires s.hosts[canary].role == Canary && s.hosts[canary].tracks == Main && s.hosts[canary].token
    requires s.hosts[host].role == Production && s.hosts[host].tracks == Stable
    requires s.hosts[canary].phase == s.hosts[host].phase == Idle
    requires s.hosts[canary].head != s.main && s.hosts[host].head != s.main
    requires s.stable.None? || forward(s.stable.value, s.main)
    ensures var t := Run(forward, s, Ticking(canary) + [Command(canary, true)] + Ticking(host));
      t.stable == Some(s.main) && s.main in t.passed && canary in t.hosts && host in t.hosts &&
      (forall id :: id in {canary, host} ==>
         t.hosts[id].head == s.main && t.hosts[id].tag == t.hosts[id].running == Some(s.main) &&
         t.hosts[id].phase == Idle)
  {
    hide Run;
    TicksThrough(forward, s, canary, s.main);
    var u := Ticked(s, canary, s.main);
    RunConcat(forward, s, Ticking(canary), [Command(canary, true)]);
    OneAction(forward, u, Command(canary, true));
    var v := Step(forward, u, Command(canary, true));
    assert v.stable == Some(s.main) && v.hosts == u.hosts[canary := u.hosts[canary].(phase := Idle)];
    hide Step;
    TicksThrough(forward, v, host, s.main);
    RunConcat(forward, s, Ticking(canary) + [Command(canary, true)], Ticking(host));
  }

  lemma OneAction(forward: (Commit, Commit) -> bool, s: State, a: Action)
    ensures Run(forward, s, [a]) == Step(forward, s, a)
  {
    assert [a][1..] == [];
    assert Run(forward, Step(forward, s, a), []) == Step(forward, s, a);
  }

  /** A passed gate leads to a push exactly on a canary with a token; a push that is not forward changes nothing. */
  lemma PushesExactly(forward: (Commit, Commit) -> bool, s: State, id: HostId)
    requires id in s.hosts
    ensures s.hosts[id].phase.Gating? ==>
      (Step(forward, s, Command(id, true)).hosts[id].phase.Promoting? <==>
         s.hosts[id].role == Canary && s.hosts[id].token) &&
      Step(forward, s, Command(id, true)).stable == s.stable
    ensures s.hosts[id].phase.Promoting? ==>
      Step(forward, s, Command(id, true)).stable ==
        if s.stable.Some? && !forward(s.stable.value, s.hosts[id].phase.target) then s.stable
        else Some(s.hosts[id].phase.target)
    ensures Step(forward, s, Command(id, false)).stable == s.stable
  {
  }

  /** What happens outside the hosts: pushes, and a crash, which ends that host's run and touches nothing else. */
  lemma OutsideEvents(forward: (Commit, Commit) -> bool, s: State, c: Commit, id: HostId)
    ensures Step(forward, s, PushMain(c)) == s.(main := c)
    ensures Step(forward, s, PushStable(c))
         == if s.stable == None || forward(s.stable.value, c) then s.(stable := Some(c)) else s
    ensures id in s.hosts ==>
              Step(forward, s, Crash(id)) == s.(hosts := s.hosts[id := s.hosts[id].(phase := Idle)])
  {
  }
}
