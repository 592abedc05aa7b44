/** Drives one update through the coordinator against workers that may fail to
    drain, fail to load, fail the probe or disagree on it, while everybody else
    may call the coordinator too: drain, verify, fail, commit, abort, check the
    deadline, or begin another update once this one has ended. */
module Executor {
  import opened Outcomes
  import opened Models
  import opened Ordering
  import opened Versioning
  import opened Protocol

  datatype Cause =
    | NoAdapter
    | NotSelected
    | DrainTimeout
    | RpcFailed
    | ProbeFailed
    | BadResponse
    | ProbeMismatch
    | CoordinatorRefused

  /** How the call ends: refused before anything started, committed with the
      probe digests, raised an error, or cancelled by its caller at an await,
      which no handler catches. */
  datatype Ending =
    | Refused(error: Error)
    | Completed(results: map<string, Option<string>>)
    | Errored(cause: Cause)
    | Cancelled

  datatype Attempt = Loaded(digest: Option<string>) | Lost(cause: Cause) | Dropped

  /** What the call waits for, and how that turns out: an answer, one that cannot
      be read, an exception (or the deadline), or the caller giving up. */
  datatype Errand = ToDrain | ToLoad | ToProbe

  datatype Fate = Answered(text: string) | Garbled | Failing | Abandoned

  datatype Call = Call(errand: Errand, id: string, fate: Fate)

  predicate LastIs(calls: seq<Call>, errand: Errand, fate: Fate) {
    calls != [] && calls[|calls| - 1].errand == errand && calls[|calls| - 1].fate == fate
  }

  predicate ProbeFails(calls: seq<Call>) {
    LastIs(calls, ToProbe, Failing) || LastIs(calls, ToProbe, Garbled)
  }

  predicate GaveUp(calls: seq<Call>) {
    calls != [] && calls[|calls| - 1].fate == Abandoned
  }

  predicate Unreadable(calls: seq<Call>) {
    exists i | 0 <= i < |calls| :: calls[i].errand == ToLoad && calls[i].fate == Garbled
  }

  predicate AllAnswer(calls: seq<Call>) {
    forall i | 0 <= i < |calls| :: calls[i].fate.Answered?
  }

  /** Two probes were answered, and differently. */
  predicate ProbesDiffer(calls: seq<Call>) {
    exists i, j | 0 <= i < |calls| && 0 <= j < |calls| ::
      && calls[i].errand == ToProbe && calls[j].errand == ToProbe
      && calls[i].fate.Answered? && calls[j].fate.Answered? && calls[i].fate != calls[j].fate
  }

  /** One participant drained, loaded and, when asked, probed, all of it
      answered. */
  ghost predicate Round(made: seq<Call>, id: string, probing: bool, digest: Option<string>) {
    && |made| == (if probing then 3 else 2)
    && made[0] == Call(ToDrain, id, Answered(""))
    && made[1].errand == ToLoad && made[1].id == id && made[1].fate.Answered?
    && digest.Some? == probing && (probing ==> made[2] == Call(ToProbe, id, Answered(digest.value)))
  }

  /** How an attempt ends is how its last wait did. */
  ghost predicate Explains(made: seq<Call>, attempt: Attempt) {
    && (attempt == Lost(DrainTimeout) <==> LastIs(made, ToDrain, Failing))
    && (attempt == Lost(RpcFailed) <==> LastIs(made, ToLoad, Failing))
    && (attempt == Lost(ProbeFailed) <==> ProbeFails(made))
    && (attempt == Dropped <==> GaveUp(made))
    && (attempt == Lost(BadResponse) ==> Unreadable(made))
  }

  ghost function Explaining(attempt: Attempt): iset<seq<Call>> {
    iset made: seq<Call> | Explains(made, attempt)
  }

  /** The participant's own calls are among those made, and were answered. */
  ghost predicate HeardFrom(calls: seq<Call>, id: string, probing: bool, digest: Option<string>) {
    && Call(ToDrain, id, Answered("")) in calls
    && (exists text :: Call(ToLoad, id, Answered(text)) in calls)
    && digest.Some? == probing && (probing ==> Call(ToProbe, id, Answered(digest.value)) in calls)
  }

  /** Every call made was answered, and what the probes said is in results. */
  ghost predicate Noted(calls: seq<Call>, results: map<string, Option<string>>, probing: bool) {
    && AllAnswer(calls)
    && (forall id | id in results :: HeardFrom(calls, id, probing, results[id]))
    && forall i | 0 <= i < |calls| && calls[i].errand == ToProbe ::
         calls[i].id in results && results[calls[i].id] == Some(calls[i].fate.text)
  }

  ghost function Notes(results: map<string, Option<string>>, probing: bool): iset<seq<Call>> {
    iset calls: seq<Call> | Noted(calls, results, probing)
  }

  lemma NothingNoted(probing: bool)
    ensures [] in Notes(map[], probing)
  {}

  lemma HeardStays(calls: seq<Call>, made: seq<Call>, id: string, probing: bool, digest: Option<string>)
    requires HeardFrom(calls, id, probing, digest)
    ensures HeardFrom(calls + made, id, probing, digest)
  {
    var text :| Call(ToLoad, id, Answered(text)) in calls;
    assert Call(ToLoad, id, Answered(text)) in calls + made;
  }

  lemma RoundIsHeard(made: seq<Call>, id: string, probing: bool, digest: Option<string>)
    requires Round(made, id, probing, digest)
    ensures HeardFrom(made, id, probing, digest) && AllAnswer(made)
  {
    assert made[1] == Call(ToLoad, id, Answered(made[1].fate.text));
    assert made[0] in made && made[1] in made && (probing ==> made[2] in made);
  }

  lemma NoteRound(calls: seq<Call>, made: seq<Call>, results: map<string, Option<string>>, id: string, probing: bool,
                  digest: Option<string>)
    requires calls in Notes(results, probing) && Round(made, id, probing, digest) && id !in results
    ensures calls + made in Notes(results[id := digest], probing)
  {
    RoundIsHeard(made, id, probing, digest);
    var after := results[id := digest];
    forall p | p in after ensures HeardFrom(calls + made, p, probing, after[p]) {
      if p == id {
        LaterIsHeard(calls, made, id, probing, digest);
      } else {
        HeardStays(calls, made, p, probing, after[p]);
      }
    }
  }

  lemma LaterIsHeard(calls: seq<Call>, made: seq<Call>, id: string, probing: bool, digest: Option<string>)
    requires HeardFrom(made, id, probing, digest)
    ensures HeardFrom(calls + made, id, probing, digest)
  {
    var text :| Call(ToLoad, id, Answered(text)) in made;
    assert Call(ToLoad, id, Answered(text)) in calls + made;
  }

  /** The results disagree exactly if the answers did. */
  lemma DisagreeIff(calls: seq<Call>, results: map<string, Option<string>>, probing: bool)
    requires calls in Notes(results, probing)
    ensures Disagree(results) <==> ProbesDiffer(calls)
  {
    if a, b :| a in results && b in results && results[a].Some? && results[b].Some? && results[a] != results[b] {
      assert HeardFrom(calls, a, probing, results[a]) && HeardFrom(calls, b, probing, results[b]);
      var i :| 0 <= i < |calls| && calls[i] == Call(ToProbe, a, Answered(results[a].value));
      var j :| 0 <= j < |calls| && calls[j] == Call(ToProbe, b, Answered(results[b].value));
    }
  }

  /** How the call ends is how its last wait did; it completes only if there is
      an adapter for every participant and each of its calls was answered, with
      one digest. */
  ghost predicate Accounts(ending: Ending, u: WeightUpdate, adapters: set<string>, probing: bool, calls: seq<Call>) {
    && (ending == Errored(DrainTimeout) <==> LastIs(calls, ToDrain, Failing))
    && (ending == Errored(RpcFailed) <==> LastIs(calls, ToLoad, Failing))
    && (ending == Errored(ProbeFailed) <==> ProbeFails(calls))
    && (ending == Cancelled <==> GaveUp(calls))
    && (ending == Errored(BadResponse) ==> Unreadable(calls))
    && (ending == Errored(NoAdapter) ==> !(SetOf(u.order) <= adapters))
    && (ending == Errored(ProbeMismatch) ==> ProbesDiffer(calls))
    && (ending.Completed? ==>
          && SetOf(u.order) <= adapters && AllAnswer(calls) && !ProbesDiffer(calls)
          && ending.results.Keys == u.workers.Keys
          && forall id | id in u.workers :: HeardFrom(calls, id, probing, ending.results[id]))
  }

  /** Two probes answered, and not with the same digest. */
  predicate Disagree(results: map<string, Option<string>>) {
    exists a, b | a in results && b in results :: results[a].Some? && results[b].Some? && results[a] != results[b]
  }

  /** The same update, whatever its progress. */
  predicate SameIdentity(u: WeightUpdate, u': WeightUpdate) {
    && u'.id == u.id && u'.order == u.order && u'.workers.Keys == u.workers.Keys
    && u'.fromVersion == u.fromVersion && u'.toVersion == u.toVersion && u'.mode == u.mode
    && u'.expectedChecksum == u.expectedChecksum && u'.deadline == u.deadline
  }

  lemma RunAppend(s: State, steps: seq<Step>, step: Step)
    ensures Run(s, steps + [step]) == Apply(Run(s, steps), step)
    ensures LegalRun(s, steps + [step]) <==> LegalRun(s, steps) && Legal(Run(s, steps), step)
  {
    assert (steps + [step])[..|steps|] == steps;
  }

  lemma {:induction false} RunConcat(s: State, a: seq<Step>, b: seq<Step>)
    ensures Run(s, a + b) == Run(Run(s, a), b)
    ensures LegalRun(s, a + b) <==> LegalRun(s, a) && LegalRun(Run(s, a), b)
  {
    if b == [] {
      assert a + b == a;
    } else {
      var n := |b| - 1;
      RunConcat(s, a, b[..n]);
      assert (a + b)[..|a + b| - 1] == a + b[..n];
    }
  }

  /** steps is a legal run from s to s'. */
  ghost predicate Reaches(s: State, steps: seq<Step>, s': State) {
    LegalRun(s, steps) && s' == Run(s, steps)
  }

  lemma ReachesNext(s: State, steps: seq<Step>, s': State, step: Step)
    requires Reaches(s, steps, s') && Legal(s', step)
    ensures Reaches(s, steps + [step], Apply(s', step))
  {
    RunAppend(s, steps, step);
  }

  lemma ReachesMore(s: State, a: seq<Step>, s': State, b: seq<Step>, s'': State)
    requires Reaches(s, a, s') && Reaches(s', b, s'')
    ensures Reaches(s, a + b, s'')
  {
    RunConcat(s, a, b);
  }

  ghost function Reached(s: State, steps: seq<Step>): iset<State> {
    iset s': State | Reaches(s, steps, s')
  }

  lemma RunsOn(s: State, steps: seq<Step>, s': State, step: Step)
    requires s' in Reached(s, steps) && Legal(s', step)
    ensures Apply(s', step) in Reached(s, steps + [step])
  {
    ReachesNext(s, steps, s', step);
  }

  lemma RunsThen(s: State, a: seq<Step>, s': State, b: seq<Step>, s'': State)
    requires s' in Reached(s, a) && s'' in Reached(s', b)
    ensures s'' in Reached(s, a + b)
  {
    ReachesMore(s, a, s', b, s'');
  }

  /** The update was aborted and left no participant mid-update or at the new
      version. */
  ghost predicate Gone(s: State) {
    && Inv(s) && s.active.Some? && s.active.value.status == Aborted
    && forall id | id in s.active.value.workers :: CleanlyAborted(s, id)
  }

  /** The update was committed and every participant serves the new version. */
  ghost predicate Served(s: State) {
    && Inv(s) && s.active.Some? && s.active.value.status == Committed
    && forall id | id in s.active.value.workers ::
         id in s.workers && s.workers[id].lifecycle == Ready && s.workers[id].version == s.active.value.toVersion
  }

  /** The coordinator's update is u, and is either open with its first k
      participants verified, or ended all one way. */
  ghost predicate Mine(s: State, u: WeightUpdate, k: nat) {
    && Inv(s) && Shape(s) && s.active.Some? && SameIdentity(u, s.active.value) && k <= |u.order|
    && if s.Open() then VerifiedUpTo(s, k) else Gone(s) || Served(s)
  }

  ghost function Owned(u: WeightUpdate, k: nat): iset<State> {
    iset s: State | Mine(s, u, k)
  }

  ghost predicate VerifiedUpTo(s: State, k: nat)
    requires Inv(s) && s.Open() && k <= |s.active.value.order|
  {
    forall i | 0 <= i < k :: StageOf(s.active.value, i) == Verified
  }

  lemma BeginIsMine(s: State, a: BeginArgs)
    requires Inv(s) && Begin(s, a).outcome == Ok
    ensures var s' := Begin(s, a).state;
      && s'.active == Some(NewUpdate(a, Dedup(Chosen(s, a)))) && s'.Open() && Mine(s', s'.active.value, 0)
  {
    BeginKeepsInv(s, a);
    if a.mode == Rolling { BeginMakesShape(s, a); }
  }

  /** What others may do: anything the protocol allows, short of reports by
      the participants themselves. */
  predicate Allowed(s: State, step: Step) {
    Legal(s, step) && (step.Heartbeat? && s.active.Some? ==> step.id !in s.active.value.workers)
  }

  /** The step puts another update in this one's place. */
  predicate Replaces(s: State, step: Step) {
    step.DoBegin? && Begin(s, step.args).outcome == Ok
  }

  // While nobody replaces it, the update stays the call's own.

  lemma StepKeepsIdentity(s: State, step: Step)
    requires Inv(s) && s.active.Some? && !Replaces(s, step)
    ensures Apply(s, step).active.Some? && SameIdentity(s.active.value, Apply(s, step).active.value)
    ensures !s.Open() ==> Apply(s, step).active == s.active
  {
    match step
    case DoVerify(id, v, c) => VerifyKeepsIdentity(s, id, v, c);
    case DoDrain(id) => DrainKeepsIdentity(s, id);
    case DoFail(id, e) => FailKeepsIdentity(s, id, e);
    case DoCommit => EndKeepsIdentity(s, 0);
    case DoAbort => EndKeepsIdentity(s, 0);
    case DoCheckTimeout(now) => EndKeepsIdentity(s, now);
    case _ =>
  }

  lemma VerifyKeepsIdentity(s: State, id: string, v: int, c: Option<string>)
    requires s.active.Some?
    ensures var s' := Verify(s, id, v, c).state;
      s'.active.Some? && SameIdentity(s.active.value, s'.active.value) && (!s.Open() ==> s'.active == s.active)
  {
    FailKeepsIdentity(s, id, "wrong version");
    FailKeepsIdentity(s, id, "parameter checksum mismatch");
  }

  lemma DrainKeepsIdentity(s: State, id: string)
    requires s.active.Some?
    ensures var s' := Drain(s, id).state;
      s'.active.Some? && SameIdentity(s.active.value, s'.active.value) && (!s.Open() ==> s'.active == s.active)
  {}

  lemma FailKeepsIdentity(s: State, id: string, e: string)
    requires s.active.Some?
    ensures var s' := Fail(s, id, e).state;
      s'.active.Some? && SameIdentity(s.active.value, s'.active.value) && (!s.Open() ==> s'.active == s.active)
  {}

  lemma EndKeepsIdentity(s: State, now: int)
    requires s.active.Some?
    ensures Commit(s).state.active.Some? && SameIdentity(s.active.value, Commit(s).state.active.value)
    ensures Abort(s).state.active.Some? && SameIdentity(s.active.value, Abort(s).state.active.value)
    ensures CheckTimeout(s, now).state.active.Some?
    ensures SameIdentity(s.active.value, CheckTimeout(s, now).state.active.value)
    ensures !s.Open() ==>
              Commit(s).state == s && Abort(s).state == s && CheckTimeout(s, now).state == s
  {}

  /** What was verified stays verified as long as the update is open. */
  lemma VerifiedStays(s: State, step: Step, id: string)
    requires Inv(s) && s.Open() && Legal(s, step) && id in s.active.value.workers
    requires s.active.value.workers[id].stage == Verified && !Replaces(s, step)
    ensures Apply(s, step).active.Some? && id in Apply(s, step).active.value.workers
    ensures Apply(s, step).active.value.workers[id].stage == Verified
  {
    assert Coupled(s.active.value, s.active.value.workers[id], s.workers[id]);
    match step
    case DoVerify(p, v, c) => VerifyKeepsVerified(s, p, v, c, id);
    case _ =>
  }

  lemma VerifyKeepsVerified(s: State, p: string, v: int, c: Option<string>, id: string)
    requires Inv(s) && s.Open() && id in s.active.value.workers && s.active.value.workers[id].stage == Verified
    ensures var s' := Verify(s, p, v, c).state;
      s'.active.Some? && id in s'.active.value.workers && s'.active.value.workers[id].stage == Verified
  {
    assert Coupled(s.active.value, s.active.value.workers[id], s.workers[id]);
  }

  lemma AbortCleans(s: State)
    requires Inv(s) && s.Open()
    ensures Gone(Abort(s).state)
  {
    EndKeepsInv(s, 0);
    forall id | id in s.active.value.workers ensures CleanlyAborted(Abort(s).state, id) {
      AbortIsClean(s, id);
    }
  }

  lemma CommitServes(s: State)
    requires Inv(s) && s.Open() && AllVerified(s.active.value)
    ensures Commit(s).outcome == Ok && Served(Commit(s).state)
  {
    EndKeepsInv(s, 0);
    forall id | id in s.active.value.workers
      ensures s.workers[id].lifecycle == Ready && s.workers[id].version == s.active.value.toVersion
    {
      assert Coupled(s.active.value, s.active.value.workers[id], s.workers[id]);
    }
  }

  /** An open update ends all one way. */
  lemma EndsOneWay(s: State, step: Step)
    requires Inv(s) && s.Open() && Legal(s, step) && !Apply(s, step).Open()
    ensures Gone(Apply(s, step)) || Served(Apply(s, step))
  {
    match step
    case DoCommit => CommitServes(s);
    case DoAbort => AbortCleans(s);
    case DoCheckTimeout(now) => AbortCleans(s);
    case _ => assert false;
  }

  /** And stays so, whatever the others do then. */
  lemma EndedStays(s: State, step: Step)
    requires Inv(s) && (Gone(s) || Served(s)) && Allowed(s, step) && !Replaces(s, step)
    ensures Gone(s) ==> Gone(Apply(s, step))
    ensures Served(s) ==> Served(Apply(s, step))
  {
    StepKeepsInv(s, step);
    StepKeepsIdentity(s, step);
    var s' := Apply(s, step);
    forall id | id in s.active.value.workers && id in s.workers
      ensures id in s'.workers && s'.workers[id].lifecycle == s.workers[id].lifecycle
      ensures s'.workers[id].version == s.workers[id].version
    {
      EndedWorkerStays(s, step, id);
    }
    if Gone(s) {
      forall id | id in s.active.value.workers ensures CleanlyAborted(s', id) {
        assert CleanlyAborted(s, id);
      }
    }
  }

  lemma EndedWorkerStays(s: State, step: Step, id: string)
    requires s.active.Some? && !s.Open() && id in s.active.value.workers && id in s.workers
    requires Allowed(s, step) && !Replaces(s, step)
    ensures id in Apply(s, step).workers && Apply(s, step).workers[id].lifecycle == s.workers[id].lifecycle
    ensures Apply(s, step).workers[id].version == s.workers[id].version
  {}

  lemma StepKeepsMine(s: State, step: Step, u: WeightUpdate, k: nat)
    requires Mine(s, u, k) && Allowed(s, step) && !Replaces(s, step)
    ensures Mine(Apply(s, step), u, k)
  {
    StepKeepsShape(s, step);
    StepKeepsIdentity(s, step);
    if !s.Open() {
      EndedStays(s, step);
    } else if !Apply(s, step).Open() {
      EndsOneWay(s, step);
    } else {
      VerifiedUpToStays(s, step, k);
    }
  }

  lemma VerifiedUpToStays(s: State, step: Step, k: nat)
    requires Inv(s) && s.Open() && Legal(s, step) && !Replaces(s, step) && k <= |s.active.value.order|
    requires VerifiedUpTo(s, k)
    ensures Inv(Apply(s, step)) && Apply(s, step).active.Some?
    ensures Apply(s, step).active.value.order == s.active.value.order
    ensures Apply(s, step).Open() ==> VerifiedUpTo(Apply(s, step), k)
  {
    StepKeepsInv(s, step);
    StepKeepsIdentity(s, step);
    var u := s.active.value;
    if Apply(s, step).Open() {
      forall i | 0 <= i < k ensures StageOf(Apply(s, step).active.value, i) == Verified {
        assert u.order[i] in SetOf(u.order) && StageOf(u, i) == Verified;
        VerifiedStays(s, step, u.order[i]);
      }
    }
  }

  // Whether anybody else has touched the update.

  /** The k-th participant is where the call has taken it, and the later ones
      are still to come. */
  ghost predicate Tidy(s: State, k: nat, stage: Stage) {
    && Inv(s) && s.Open() && k <= |s.active.value.order|
    && (k < |s.active.value.order| ==> StageOf(s.active.value, k) == stage)
    && forall i | k < i < |s.active.value.order| :: StageOf(s.active.value, i) == Pending
  }

  /** The update is as the call has left it exactly if nobody meddled with it. */
  ghost predicate Follows(s: State, u: WeightUpdate, k: nat, stage: Stage, meddled: bool) {
    && Mine(s, u, k) && (!meddled <==> Tidy(s, k, stage))
    && (stage == Installing && s.Open() && k < |u.order| ==> StageOf(s.active.value, k) != Pending)
  }

  ghost function Following(u: WeightUpdate, k: nat, stage: Stage, meddled: bool): iset<State> {
    iset s: State | Follows(s, u, k, stage, meddled)
  }

  lemma FollowingIsSame(s: State, u: WeightUpdate, k: nat, stage: Stage, meddled: bool)
    requires s in Following(u, k, stage, meddled)
    ensures s.active.Some? && SameIdentity(u, s.active.value)
  {}

  lemma FollowingIsMine(s: State, u: WeightUpdate, k: nat, stage: Stage, meddled: bool)
    requires s in Following(u, k, stage, meddled)
    ensures Mine(s, u, k) && s.active.Some? && SameIdentity(u, s.active.value)
    ensures k == |u.order| ==> (!meddled <==> s.Open())
  {}

  /** The step changes the update. */
  predicate Meddles(s: State, step: Step) {
    Apply(s, step).active != s.active
  }

  /** What changes an open update without ending it moves one participant on. */
  lemma MeddlingMoves(s: State, step: Step) returns (p: string)
    requires Inv(s) && s.Open() && Allowed(s, step) && !Replaces(s, step) && Meddles(s, step) && Apply(s, step).Open()
    ensures p in s.active.value.workers && p in Apply(s, step).active.value.workers
    ensures var was, now := s.active.value.workers[p].stage, Apply(s, step).active.value.workers[p].stage;
      || (was == Pending && (now == Installing || now == Broken))
      || (was == Installing && (now == Verified || now == Broken))
  {
    p := if step.DoDrain? || step.DoVerify? || step.DoFail? then step.id else "";
    assert p in s.active.value.workers && p in s.workers;
    assert Coupled(s.active.value, s.active.value.workers[p], s.workers[p]);
  }

  /** No participant goes back. */
  lemma StagesAdvance(s: State, step: Step, id: string)
    requires Inv(s) && s.Open() && Legal(s, step) && !Replaces(s, step) && Apply(s, step).Open()
    requires id in s.active.value.workers
    ensures id in Apply(s, step).active.value.workers
    ensures var was, now := s.active.value.workers[id].stage, Apply(s, step).active.value.workers[id].stage;
      && (was != Pending ==> now != Pending) && (was in {Verified, Broken} ==> now in {Verified, Broken})
  {
    assert Coupled(s.active.value, s.active.value.workers[id], s.workers[id]);
    match step
    case DoVerify(p, v, c) => VerifyAdvancesStage(s, p, v, c, id);
    case DoDrain(_) => StepKeepsIdentity(s, step);
    case DoFail(_, _) => StepKeepsIdentity(s, step);
    case _ =>
  }

  lemma VerifyAdvancesStage(s: State, p: string, v: int, c: Option<string>, id: string)
    requires Inv(s) && s.Open() && id in s.active.value.workers
    ensures Verify(s, p, v, c).state.active.Some? && id in Verify(s, p, v, c).state.active.value.workers
    ensures var was, now := s.active.value.workers[id].stage, Verify(s, p, v, c).state.active.value.workers[id].stage;
      && (was != Pending ==> now != Pending) && (was in {Verified, Broken} ==> now in {Verified, Broken})
  {
    assert Coupled(s.active.value, s.active.value.workers[id], s.workers[id]);
  }

  lemma StepFollows(s: State, step: Step, u: WeightUpdate, k: nat, stage: Stage, meddled: bool)
    requires s in Following(u, k, stage, meddled) && Allowed(s, step) && !Replaces(s, step)
    requires k < |u.order| && stage in {Pending, Installing}
    ensures Apply(s, step) in Following(u, k, stage, meddled || Meddles(s, step))
  {
    StepKeepsMine(s, step, u, k);
    StepKeepsIdentity(s, step);
    if s.Open() && Apply(s, step).Open() {
      StageGoesOn(s, step, k);
      StaysTidyIff(s, step, u, k, stage);
    }
  }

  lemma StaysTidyIff(s: State, step: Step, u: WeightUpdate, k: nat, stage: Stage)
    requires Mine(s, u, k) && s.Open() && Apply(s, step).Open() && Allowed(s, step) && !Replaces(s, step)
    requires k < |u.order| && stage in {Pending, Installing}
    requires stage == Installing ==> StageOf(s.active.value, k) != Pending
    ensures Inv(Apply(s, step))
    ensures Tidy(Apply(s, step), k, stage) <==> Tidy(s, k, stage) && !Meddles(s, step)
  {
    StepKeepsInv(s, step);
    if !Tidy(s, k, stage) {
      UntidyStays(s, step, k, stage);
    } else if Meddles(s, step) {
      MeddlingShows(s, step, u, k, stage);
    }
  }

  lemma StageGoesOn(s: State, step: Step, k: nat)
    requires Inv(s) && s.Open() && Legal(s, step) && !Replaces(s, step) && Apply(s, step).Open()
    requires k < |s.active.value.order|
    ensures Inv(Apply(s, step)) && Apply(s, step).active.value.order == s.active.value.order
    ensures var was, now := StageOf(s.active.value, k), StageOf(Apply(s, step).active.value, k);
      && (was != Pending ==> now != Pending) && (was in {Verified, Broken} ==> now in {Verified, Broken})
  {
    StepKeepsInv(s, step);
    StepKeepsIdentity(s, step);
    assert s.active.value.order[k] in SetOf(s.active.value.order);
    StagesAdvance(s, step, s.active.value.order[k]);
  }

  lemma UntidyStays(s: State, step: Step, k: nat, stage: Stage)
    requires Inv(s) && s.Open() && Legal(s, step) && !Replaces(s, step) && Apply(s, step).Open()
    requires k < |s.active.value.order| && stage in {Pending, Installing} && !Tidy(s, k, stage)
    requires stage == Installing ==> StageOf(s.active.value, k) != Pending
    ensures !Tidy(Apply(s, step), k, stage)
  {
    StageGoesOn(s, step, k);
    if StageOf(s.active.value, k) == stage {
      var i :| k < i < |s.active.value.order| && StageOf(s.active.value, i) != Pending;
      StageGoesOn(s, step, i);
    }
  }

  lemma MeddlingShows(s: State, step: Step, u: WeightUpdate, k: nat, stage: Stage)
    requires Mine(s, u, k) && Tidy(s, k, stage) && Allowed(s, step) && !Replaces(s, step) && Meddles(s, step)
    requires k < |u.order| && stage in {Pending, Installing} && Apply(s, step).Open()
    ensures !Tidy(Apply(s, step), k, stage)
  {
    StepKeepsInv(s, step);
    StepKeepsIdentity(s, step);
    var p := MeddlingMoves(s, step);
    MoveShows(s, Apply(s, step), p, k, stage);
  }

  lemma MoveShows(s: State, s': State, p: string, k: nat, stage: Stage)
    requires Inv(s) && s.Open() && Inv(s') && s'.Open() && s'.active.value.order == s.active.value.order
    requires k < |s.active.value.order| && VerifiedUpTo(s, k)
    requires Tidy(s, k, stage) && stage in {Pending, Installing}
    requires p in s.active.value.workers && p in s'.active.value.workers
    requires var was, now := s.active.value.workers[p].stage, s'.active.value.workers[p].stage;
      || (was == Pending && (now == Installing || now == Broken))
      || (was == Installing && (now == Verified || now == Broken))
    ensures !Tidy(s', k, stage)
  {
    var i := IndexOf(s.active.value.order, p);
    assert StageOf(s.active.value, i) == s.active.value.workers[p].stage;
    assert StageOf(s'.active.value, i) == s'.active.value.workers[p].stage;
  }

  lemma BeginFollows(s: State, a: BeginArgs)
    requires Inv(s) && Begin(s, a).outcome == Ok
    ensures Begin(s, a).state.active.Some?
    ensures Begin(s, a).state in Following(Begin(s, a).state.active.value, 0, Pending, false)
  {
    BeginIsMine(s, a);
    var s' := Begin(s, a).state;
    forall i | 0 <= i < |s'.active.value.order| ensures StageOf(s'.active.value, i) == Pending {
      assert s'.active.value.order[i] in SetOf(s'.active.value.order);
    }
  }

  // The steps of the call.

  /** Marked drained by the call, a participant is being updated and the others
      are as before. */
  lemma OwnDrain(s: State, u: WeightUpdate, k: nat, meddled: bool)
    requires s in Following(u, k, Pending, meddled) && k < |u.order| && Drain(s, u.order[k]).outcome == Ok
    ensures Drain(s, u.order[k]).state in Following(u, k, Installing, meddled)
  {
    var s' := Drain(s, u.order[k]).state;
    FollowingIsMine(s, u, k, Pending, meddled);
    StepKeepsMine(s, DoDrain(u.order[k]), u, k);
    DrainStaysTidy(s, k);
    assert Follows(s', u, k, Installing, meddled);
  }

  lemma DrainStaysTidy(s: State, k: nat)
    requires Inv(s) && s.Open() && k < |s.active.value.order| && Drain(s, s.active.value.order[k]).outcome == Ok
    ensures var s' := Drain(s, s.active.value.order[k]).state;
      && Inv(s') && s'.Open() && s'.active.value.order == s.active.value.order
      && StageOf(s'.active.value, k) == Installing
      && (Tidy(s', k, Installing) <==> Tidy(s, k, Pending))
  {
    var s' := Drain(s, s.active.value.order[k]).state;
    DrainKeepsInv(s, s.active.value.order[k]);
    CoupledAt(s, k);
    forall i | 0 <= i < |s.active.value.order|
      ensures StageOf(s'.active.value, i) == if i == k then Installing else StageOf(s.active.value, i)
    {
      DrainStages(s, k, i);
    }
  }

  lemma DrainStages(s: State, k: nat, i: nat)
    requires Inv(s) && s.Open() && k < |s.active.value.order| && i < |s.active.value.order|
    requires Drain(s, s.active.value.order[k]).outcome == Ok
    ensures var u' := Drain(s, s.active.value.order[k]).state.active.value;
      && u'.order == s.active.value.order && SetOf(u'.order) == u'.workers.Keys
      && StageOf(u', i) == if i == k then Installing else StageOf(s.active.value, i)
  {
    assert s.active.value.order[i] in SetOf(s.active.value.order);
  }

  /** The coordinator refuses to mark a participant without work only if others
      meddled. */
  lemma DrainGoesOn(s: State, u: WeightUpdate, k: nat)
    requires s in Following(u, k, Pending, false) && k < |u.order|
    ensures u.order[k] in s.workers && s.workers[u.order[k]].lifecycle == Draining
    ensures s.workers[u.order[k]].InFlight() == 0 ==> Drain(s, u.order[k]).outcome == Ok
  {
    WaitingIsDraining(s, u, k);
    CoupledAt(s, k);
  }

  lemma OwnVerify(s: State, u: WeightUpdate, k: nat, meddled: bool)
    requires s in Following(u, k, Installing, meddled) && k < |u.order|
    requires Verify(s, u.order[k], u.toVersion, u.expectedChecksum).outcome == Ok
    ensures var s' := Verify(s, u.order[k], u.toVersion, u.expectedChecksum).state;
      s'.Open() && s' in Following(u, k + 1, Pending, meddled)
  {
    FollowingIsMine(s, u, k, Installing, meddled);
    VerifyAdvances(s, u, k);
    VerifyInstalls(s, u.order[k], u.toVersion, u.expectedChecksum);
    InstallStaysTidy(s, k, u.expectedChecksum);
    assert Follows(Verify(s, u.order[k], u.toVersion, u.expectedChecksum).state, u, k + 1, Pending, meddled);
  }

  lemma InstallStaysTidy(s: State, k: nat, c: Option<string>)
    requires Inv(s) && s.Open() && k < |s.active.value.order| && StageOf(s.active.value, k) == Installing
    requires s.active.value.order[k] in s.active.value.workers
    ensures var s' := Installed(s, s.active.value.order[k], s.active.value.toVersion, c);
      && Inv(s') && s'.Open() && s'.active.value.order == s.active.value.order
      && (Tidy(s', k + 1, Pending) <==> Tidy(s, k, Installing))
  {
    InstalledKeepsInv(s, s.active.value.order[k], c);
    forall i | k < i < |s.active.value.order|
      ensures StageOf(Installed(s, s.active.value.order[k], s.active.value.toVersion, c).active.value, i)
           == StageOf(s.active.value, i)
    {
      InstallStages(s, k, c, i);
    }
  }

  lemma InstallStages(s: State, k: nat, c: Option<string>, i: nat)
    requires Inv(s) && s.Open() && k < i < |s.active.value.order|
    requires s.active.value.order[k] in s.active.value.workers
    ensures var u' := Installed(s, s.active.value.order[k], s.active.value.toVersion, c).active.value;
      && u'.order == s.active.value.order && SetOf(u'.order) == u'.workers.Keys
      && StageOf(u', i) == StageOf(s.active.value, i)
  {
    assert s.active.value.order[i] in SetOf(s.active.value.order);
  }

  /** And to verify one that loaded, only if others meddled. */
  lemma VerifyGoesOn(s: State, u: WeightUpdate, k: nat)
    requires s in Following(u, k, Installing, false) && k < |u.order|
    ensures Verify(s, u.order[k], u.toVersion, u.expectedChecksum).outcome == Ok
  {
    CoupledAt(s, k);
  }

  /** When the loop reaches a participant it is draining, in both modes, unless
      somebody else has moved it on already; and unless it is verified it is out
      of service. */
  lemma WaitingIsDraining(s: State, u: WeightUpdate, k: nat)
    requires Mine(s, u, k) && s.Open() && k < |u.order|
    ensures WorkerAt(s, k).lifecycle == Draining <==> StageOf(s.active.value, k) == Pending
    ensures WorkerAt(s, k).lifecycle == Ready <==> StageOf(s.active.value, k) == Verified
  {
    CoupledAt(s, k);
    if s.active.value.mode == Rolling {
      var f: nat :| ShapeAt(s, f);
      FrontierIsAhead(s, f, k);
    }
  }

  lemma FrontierIsAhead(s: State, f: nat, k: nat)
    requires Inv(s) && s.Open() && ShapeAt(s, f) && k <= |s.active.value.order| && VerifiedUpTo(s, k)
    ensures k <= f
  {}

  lemma DrainIsInstalling(s: State, id: string)
    requires Inv(s) && s.active.Some? && Drain(s, id).outcome == Ok
    ensures Participant(Drain(s, id).state, id) && Drain(s, id).state.active.value.workers[id].stage == Installing
  {}

  lemma VerifyAdvances(s: State, u: WeightUpdate, k: nat)
    requires Mine(s, u, k) && k < |u.order|
    requires Verify(s, u.order[k], u.toVersion, u.expectedChecksum).outcome == Ok
    ensures var s' := Verify(s, u.order[k], u.toVersion, u.expectedChecksum).state;
      s'.Open() && Mine(s', u, k + 1)
  {
    var step := DoVerify(u.order[k], u.toVersion, u.expectedChecksum);
    var s' := Apply(s, step);
    StepKeepsMine(s, step, u, k);
    VerifyInstalls(s, u.order[k], u.toVersion, u.expectedChecksum);
    assert StageOf(s'.active.value, k) == Verified;
    forall i | 0 <= i < k + 1 ensures StageOf(s'.active.value, i) == Verified {}
  }

  lemma AllVerifiedAtEnd(s: State, u: WeightUpdate)
    requires Mine(s, u, |u.order|) && s.Open()
    ensures AllVerified(s.active.value)
  {
    var a := s.active.value;
    forall id | id in a.workers ensures a.workers[id].stage == Verified {
      var i := IndexOf(a.order, id);
      assert StageOf(a, i) == Verified;
    }
  }

  lemma MayFail(s: State, u: WeightUpdate, k: nat)
    requires Mine(s, u, k) && k < |u.order| && u.order[k] in s.active.value.workers
    requires s.active.value.workers[u.order[k]].stage in {Pending, Installing}
    ensures Allowed(s, DoFail(u.order[k], ""))
  {
    if s.Open() {
      WaitingIsDraining(s, u, k);
      CoupledAt(s, k);
    }
  }

  lemma OrderIsKnown(s: State, u: WeightUpdate, k: nat)
    requires SetOf(u.order) == u.workers.Keys && s.active.Some? && SameIdentity(u, s.active.value) && k < |u.order|
    ensures u.order[k] in s.active.value.workers
  {
    assert u.order[k] in SetOf(u.order);
  }

  /** The k-th participant is out of service. */
  ghost predicate HeldUp(s: State, k: nat) {
    && Inv(s) && s.Open() && k < |s.active.value.order|
    && (WorkerAt(s, k).lifecycle == Draining || WorkerAt(s, k).lifecycle == Updating)
  }

  /** Committed with every participant serving the new version; ended one way
      or the other by the time of an error; or, if the caller gave up, possibly
      still open, with a participant out of service unless somebody else
      verified it. */
  ghost predicate Settled(ending: Ending, u: WeightUpdate, s: State) {
    match ending
    case Refused(_) => false
    case Completed(results) => Served(s) && results.Keys == u.workers.Keys && !Disagree(results)
    case Errored(cause) => Gone(s) || Served(s)
    case Cancelled =>
      || Gone(s) || Served(s)
      || (Inv(s) && s.Open() && SameIdentity(u, s.active.value)
          && exists k: nat | k < |u.order| ::
               HeldUp(s, k) || StageOf(s.active.value, k) == Broken || StageOf(s.active.value, k) == Verified)
  }

  /** Without a commit an update is not committed. */
  lemma {:induction false} NoCommitNotServed(s: State, steps: seq<Step>)
    requires s.active.Some? && s.active.value.status != Committed && DoCommit !in steps
    ensures Run(s, steps).active.Some? && Run(s, steps).active.value.status != Committed
  {
    if steps != [] {
      NoCommitNotServed(s, steps[..|steps| - 1]);
      assert steps[|steps| - 1] in steps;
      NoCommitStep(Run(s, steps[..|steps| - 1]), steps[|steps| - 1]);
    }
  }

  lemma NoCommitStep(s: State, step: Step)
    requires s.active.Some? && s.active.value.status != Committed && !step.DoCommit?
    ensures Apply(s, step).active.Some? && Apply(s, step).active.value.status != Committed
  {}

  /** What a contact made of its one or two calls. */
  ghost predicate Contacted(made: seq<Call>, id: string, probing: bool, failure: Option<Attempt>, garbled: bool,
                            digest: Option<string>)
  {
    && made != [] && made[0].errand == ToLoad && made[0].id == id && (garbled <==> made[0].fate == Garbled)
    && (failure.None? ==> digest.Some? == probing)
    && match made[0].fate
       case Abandoned => |made| == 1 && failure == Some(Dropped)
       case Failing => |made| == 1 && failure == Some(Lost(RpcFailed))
       case _ =>
         if !probing then |made| == 1 && failure == None
         else
           && |made| == 2 && made[1].errand == ToProbe && made[1].id == id
           && match made[1].fate
              case Answered(text) => failure == None && digest == Some(text)
              case Abandoned => failure == Some(Dropped)
              case _ => failure == Some(Lost(ProbeFailed))
  }

  lemma ContactExplains(made: seq<Call>, id: string, probing: bool, failure: Option<Attempt>, garbled: bool,
                        digest: Option<string>)
    requires Contacted(made, id, probing, failure, garbled, digest)
    ensures failure.Some? ==> failure.value in {Dropped, Lost(RpcFailed), Lost(ProbeFailed)}
    ensures failure.Some? ==> made in Explaining(failure.value)
    ensures failure.None? ==> made in Explaining(Lost(CoordinatorRefused))
    ensures failure.None? && garbled ==> made in Explaining(Lost(BadResponse))
    ensures failure.None? && !garbled ==>
              && made in Explaining(Loaded(digest))
              && Round([Call(ToDrain, id, Answered(""))] + made, id, probing, digest)
  {
    var round := [Call(ToDrain, id, Answered(""))] + made;
    assert round[1] == made[0] && (|made| == 2 ==> round[2] == made[1]);
  }

  lemma DrainExplains(made: seq<Call>, id: string, failure: Attempt)
    requires failure in {Lost(NoAdapter), Lost(NotSelected), Lost(DrainTimeout), Lost(CoordinatorRefused), Dropped}
    requires if failure in {Lost(NoAdapter), Lost(NotSelected)} then made == []
             else made == [Call(ToDrain, id, DrainFate(Some(failure)))]
    ensures made in Explaining(failure)
  {}

  lemma LaterExplains(first: seq<Call>, made: seq<Call>, attempt: Attempt)
    requires made in Explaining(attempt) && made != []
    ensures first + made in Explaining(attempt)
  {
    assert (first + made)[|first + made| - 1] == made[|made| - 1];
    if Unreadable(made) {
      var i :| 0 <= i < |made| && made[i].errand == ToLoad && made[i].fate == Garbled;
      assert (first + made)[|first| + i] == made[i];
    }
  }

  /** Nothing went wrong: nobody meddled, there was an adapter for each
      participant, each call was answered, and the probes agreed. */
  ghost predicate Flawless(u: WeightUpdate, adapters: set<string>, calls: seq<Call>, meddled: bool) {
    !meddled && SetOf(u.order) <= adapters && AllAnswer(calls) && !ProbesDiffer(calls)
  }

  lemma CompletesIff(ending: Ending, u: WeightUpdate, adapters: set<string>, probing: bool, calls: seq<Call>,
                     meddled: bool)
    requires ending in Accounted(u, adapters, probing, calls) && !ending.Refused?
    requires ending in {Errored(NotSelected), Errored(CoordinatorRefused)} ==> meddled
    requires ending.Completed? ==> !meddled
    ensures ending.Completed? <==> Flawless(u, adapters, calls, meddled)
  {
    assert Accounts(ending, u, adapters, probing, calls);
    match ending
    case Completed(_) =>
    case Cancelled => assert !calls[|calls| - 1].fate.Answered?;
    case Errored(cause) => ErrorIsAFlaw(cause, u, adapters, probing, calls, meddled);
  }

  lemma ErrorIsAFlaw(cause: Cause, u: WeightUpdate, adapters: set<string>, probing: bool, calls: seq<Call>,
                     meddled: bool)
    requires Accounts(Errored(cause), u, adapters, probing, calls)
    requires cause in {NotSelected, CoordinatorRefused} ==> meddled
    ensures !Flawless(u, adapters, calls, meddled)
  {
    match cause
    case DrainTimeout => assert !calls[|calls| - 1].fate.Answered?;
    case RpcFailed => assert !calls[|calls| - 1].fate.Answered?;
    case ProbeFailed => assert !calls[|calls| - 1].fate.Answered?;
    case BadResponse => var i :| 0 <= i < |calls| && calls[i].errand == ToLoad && calls[i].fate == Garbled;
    case _ =>
  }

  /** Where an attempt that did not load the participant leaves the account. */
  ghost function Accounted(u: WeightUpdate, adapters: set<string>, probing: bool, calls: seq<Call>): iset<Ending> {
    iset ending: Ending | Accounts(ending, u, adapters, probing, calls)
  }

  lemma AttemptAccounts(calls: seq<Call>, results: map<string, Option<string>>, made: seq<Call>, attempt: Attempt,
                        u: WeightUpdate, k: nat, adapters: set<string>, probing: bool)
    requires calls in Notes(results, probing) && made in Explaining(attempt) && !attempt.Loaded? && k < |u.order|
    requires attempt == Lost(NoAdapter) ==> u.order[k] !in adapters
    requires attempt != Lost(ProbeMismatch)
    ensures (if attempt.Dropped? then Cancelled else Errored(attempt.cause))
            in Accounted(u, adapters, probing, calls + made)
  {
    assert u.order[k] in SetOf(u.order);
    if made == [] {
      assert calls + made == calls;
    } else {
      assert (calls + made)[|calls + made| - 1] == made[|made| - 1];
    }
    if Unreadable(made) {
      var i :| 0 <= i < |made| && made[i].errand == ToLoad && made[i].fate == Garbled;
      assert (calls + made)[|calls| + i] == made[i];
    }
  }

  /** And where the end of the loop does. */
  lemma FinishAccounts(ending: Ending, u: WeightUpdate, adapters: set<string>, probing: bool, calls: seq<Call>,
                       results: map<string, Option<string>>)
    requires calls in Notes(results, probing) && results.Keys == SetOf(u.order) == u.workers.Keys <= adapters
    requires if Disagree(results) then ending == Errored(ProbeMismatch)
             else ending in {Completed(results), Errored(CoordinatorRefused)}
    ensures ending in Accounted(u, adapters, probing, calls)
  {
    DisagreeIff(calls, results, probing);
  }

  /** How the wait for the drain ended. */
  function DrainFate(failure: Option<Attempt>): Fate {
    match failure
    case Some(Lost(DrainTimeout)) => Failing
    case Some(Dropped) => Abandoned
    case _ => Answered("")
  }

  class WeightUpdateExecutor {
    const coordinator: PolicyVersionCoordinator
    const adapters: set<string>

    /** The call's own update, once another one took its place at the
        coordinator. The call goes on with it in hand, and talks to the
        coordinator about the other. */
    var replaced: Option<WeightUpdate>

    /** Whether anybody else touched the update, and what the call waited for. */
    ghost var meddled: bool
    ghost var calls: seq<Call>

    constructor (coordinator: PolicyVersionCoordinator, adapters: set<string>)
      ensures this.coordinator == coordinator && this.adapters == adapters && replaced == None
    {
      this.coordinator, this.adapters, replaced := coordinator, adapters, None;
    }

    /** As long as nobody has begun another update, this one is the call's. */
    ghost predicate Held(u: WeightUpdate, k: nat)
      reads this, coordinator
    {
      && coordinator.Valid() && SetOf(u.order) == u.workers.Keys && k <= |u.order|
      && (replaced.Some? ==> SameIdentity(u, replaced.value))
      && (replaced.None? ==> coordinator.View() in Owned(u, k))
    }

    /** The call knows where its update is, unless others meddled with it. */
    ghost predicate Tracked(u: WeightUpdate, k: nat, stage: Stage)
      reads this, coordinator
    {
      && coordinator.Valid() && SetOf(u.order) == u.workers.Keys && k <= |u.order|
      && (replaced.Some? ==> meddled && SameIdentity(u, replaced.value))
      && (replaced.None? ==> coordinator.View() in Following(u, k, stage, meddled))
    }

    /** What the call has done and seen so far. */
    ghost predicate Ran(start: State, steps: seq<Step>)
      reads this, coordinator
    {
      replaced.None? ==> coordinator.View() in Reached(start, steps)
    }

    /** Whatever anybody calls. */
    method Make(step: Step)
      requires coordinator.Valid()
      modifies coordinator
      ensures coordinator.Valid() && coordinator.View() == Apply(old(coordinator.View()), step)
    {
      match step {
        case DoBegin(a) => var outcome := coordinator.BeginUpdate(a);
        case DoDrain(id) => var outcome := coordinator.MarkDrained(id);
        case DoVerify(id, v, c) => var outcome := coordinator.VerifyWorker(id, v, c);
        case DoFail(id, e) => var outcome := coordinator.FailWorker(id, e);
        case DoCommit => var outcome := coordinator.CommitUpdate();
        case DoAbort => var outcome := coordinator.AbortUpdate();
        case DoCheckTimeout(now) => var expired, outcome := coordinator.CheckDeadline(now);
        case UpdateRpc(_) =>
        case Idle =>
        case _ => Report(step);
      }
    }

    /** Work admitted to a worker or done by it, and its heartbeats. */
    method Report(step: Step)
      requires coordinator.Valid() && (step.Admit? || step.Progress? || step.Heartbeat?)
      modifies coordinator
      ensures coordinator.Valid() && coordinator.View() == Apply(old(coordinator.View()), step)
    {
      if step.id in coordinator.workers {
        var w := coordinator.workers[step.id];
        var w' := match step
          case Admit(_, _, _, _) => w.(queued := w.queued + 1)
          case Progress(_, running, queued) => w.(running := running, queued := queued)
          case Heartbeat(_, lifecycle, version, running, queued) =>
            w.(lifecycle := lifecycle, version := version, running := running, queued := queued)
          case _ => w;
        coordinator.workers := coordinator.workers[step.id := w'];
      }
    }

    /** Anything may happen once another update has taken the place of this one;
        before, anything the protocol allows. */
    method OneEvent(ghost u: WeightUpdate, ghost k: nat, ghost stage: Stage, step: Step)
        returns (ghost steps: seq<Step>)
      requires Tracked(u, k, stage) && k < |u.order| && stage in {Pending, Installing}
      modifies this`replaced, this`meddled, coordinator
      ensures Tracked(u, k, stage) && Ran(old(coordinator.View()), steps) && (old(replaced).Some? ==> replaced.Some?)
    {
      ghost var start := coordinator.View();
      steps := [];
      if replaced.Some? {
        Make(step);
      } else if Allowed(coordinator.View(), step) {
        if Replaces(coordinator.View(), step) {
          FollowingIsSame(start, u, k, stage, meddled);
          replaced := coordinator.active;
          meddled := true;
        } else {
          StepFollows(start, step, u, k, stage, meddled);
          meddled := meddled || Meddles(start, step);
        }
        RunsOn(start, [], start, step);
        steps := [] + [step];
        Make(step);
      }
    }

    /** What others do while this call awaits, in any number of events. */
    method OtherTraffic(ghost u: WeightUpdate, ghost k: nat, ghost stage: Stage) returns (ghost steps: seq<Step>)
      requires Tracked(u, k, stage) && k < |u.order| && stage in {Pending, Installing}
      modifies this`replaced, this`meddled, coordinator
      ensures Tracked(u, k, stage) && Ran(old(coordinator.View()), steps) && (old(replaced).Some? ==> replaced.Some?)
    {
      steps := [];
      ghost var start := coordinator.View();
      var rounds :| rounds >= 0;
      for i := 0 to rounds
        invariant Tracked(u, k, stage) && Ran(start, steps) && (old(replaced).Some? ==> replaced.Some?)
      {
        ghost var before := coordinator.View();
        var step: Step := *;
        ghost var more := OneEvent(u, k, stage, step);
        if replaced.None? { RunsThen(start, steps, before, more, coordinator.View()); }
        steps := steps + more;
      }
    }

    /** Polls until the worker has nothing in flight. Each poll lets others act;
        the deadline comes after some number of them. */
    method WaitDrained(u: WeightUpdate, k: nat) returns (fate: Fate, ghost steps: seq<Step>)
      requires Tracked(u, k, Pending) && k < |u.order|
      modifies this, coordinator
      ensures Tracked(u, k, Pending) && Ran(old(coordinator.View()), steps) && (old(replaced).Some? ==> replaced.Some?)
      ensures fate in {Answered(""), Failing, Abandoned} && calls == old(calls) + [Call(ToDrain, u.order[k], fate)]
      ensures fate.Answered? ==> u.order[k] !in coordinator.workers || coordinator.workers[u.order[k]].InFlight() == 0
      ensures fate.Failing? ==> u.order[k] in coordinator.workers && coordinator.workers[u.order[k]].InFlight() > 0
    {
      ghost var start := coordinator.View();
      var id := u.order[k];
      steps := [];
      var pollsLeft :| pollsLeft >= 0;
      while id in coordinator.workers
            && (coordinator.workers[id].running > 0 || coordinator.workers[id].queued > 0)
        invariant Tracked(u, k, Pending) && Ran(start, steps) && (old(replaced).Some? ==> replaced.Some?)
        invariant pollsLeft >= 0 && calls == old(calls)
        decreases pollsLeft
      {
        if pollsLeft == 0 {
          calls := calls + [Call(ToDrain, id, Failing)];
          return Failing, steps;
        }
        pollsLeft := pollsLeft - 1;
        ghost var before := coordinator.View();
        ghost var more := OtherTraffic(u, k, Pending);
        if replaced.None? { RunsThen(start, steps, before, more, coordinator.View()); }
        steps := steps + more;
        if * {
          calls := calls + [Call(ToDrain, id, Abandoned)];
          return Abandoned, steps;
        }
      }
      calls := calls + [Call(ToDrain, id, Answered(""))];
      return Answered(""), steps;
    }

    /** Whether it is the k-th participant's turn. */
    method Selected(u: WeightUpdate, k: nat) returns (failure: Option<Attempt>)
      requires Tracked(u, k, Pending) && k < |u.order|
      ensures Held(u, k) && failure in {None, Some(Lost(NoAdapter)), Some(Lost(NotSelected))}
      ensures failure == Some(Lost(NoAdapter)) <==> u.order[k] !in adapters
      ensures failure == Some(Lost(NotSelected)) ==> meddled
    {
      if replaced.None? {
        FollowingIsMine(coordinator.View(), u, k, Pending, meddled);
        if !meddled { DrainGoesOn(coordinator.View(), u, k); }
      }
      var id := u.order[k];
      failure :=
        if id !in adapters then Some(Lost(NoAdapter))
        else if id !in coordinator.workers || coordinator.workers[id].lifecycle != Draining
        then Some(Lost(NotSelected))
        else None;
    }

    /** Waits for the k-th participant to drain and marks it. */
    method DrainPhase(u: WeightUpdate, k: nat)
        returns (failure: Option<Attempt>, ghost made: seq<Call>, ghost steps: seq<Step>)
      requires Tracked(u, k, Pending) && k < |u.order|
      modifies this, coordinator
      ensures Ran(old(coordinator.View()), steps) && (old(replaced).Some? ==> replaced.Some?)
      ensures if failure.None? then Tracked(u, k, Installing) && u.order[k] in adapters else Held(u, k)
      ensures failure.None? && replaced.None? ==>
                && Participant(coordinator.View(), u.order[k])
                && coordinator.View().active.value.workers[u.order[k]].stage == Installing
      ensures failure.Some? ==>
                failure.value
                in {Lost(NoAdapter), Lost(NotSelected), Lost(DrainTimeout), Lost(CoordinatorRefused), Dropped}
      ensures failure == Some(Lost(NoAdapter)) <==> u.order[k] !in adapters
      ensures failure in {Some(Lost(NotSelected)), Some(Lost(CoordinatorRefused))} ==> meddled
      ensures calls == old(calls) + made
      ensures made == if failure in {Some(Lost(NoAdapter)), Some(Lost(NotSelected))} then []
                      else [Call(ToDrain, u.order[k], DrainFate(failure))]
    {
      ghost var start := coordinator.View();
      var id := u.order[k];
      made, steps := [], [];
      failure := Selected(u, k);
      if failure.Some? { return; }
      var fate;
      fate, steps := WaitDrained(u, k);
      made := [Call(ToDrain, id, fate)];
      ghost var before := coordinator.View();
      if replaced.None? { FollowingIsMine(before, u, k, Pending, meddled); }
      if fate.Abandoned? { return Some(Dropped), made, steps; }
      if fate.Failing? { return Some(Lost(DrainTimeout)), made, steps; }
      var outcome := Mark(u, k);
      if replaced.None? { RunsOn(start, steps, before, DoDrain(id)); }
      steps := steps + [DoDrain(id)];
      failure := if outcome == Ok then None else Some(Lost(CoordinatorRefused));
    }

    method Mark(u: WeightUpdate, k: nat) returns (outcome: Outcome)
      requires Tracked(u, k, Pending) && k < |u.order|
      requires u.order[k] in coordinator.workers ==> coordinator.workers[u.order[k]].InFlight() == 0
      modifies coordinator
      ensures Reply(coordinator.View(), outcome) == Drain(old(coordinator.View()), u.order[k])
      ensures if outcome == Ok then Tracked(u, k, Installing) else meddled && Held(u, k)
      ensures outcome == Ok && replaced.None? ==>
                && Participant(coordinator.View(), u.order[k])
                && coordinator.View().active.value.workers[u.order[k]].stage == Installing
    {
      ghost var before, id := coordinator.View(), u.order[k];
      if replaced.None? {
        FollowingIsMine(before, u, k, Pending, meddled);
        StepKeepsMine(before, DoDrain(id), u, k);
        if !meddled { DrainGoesOn(before, u, k); }
        if Drain(before, id).outcome == Ok {
          DrainIsInstalling(before, id);
          OwnDrain(before, u, k, meddled);
        }
      }
      outcome := coordinator.MarkDrained(u.order[k]);
    }

    /** A call to the k-th participant, with others acting meanwhile: it
        answers, fails, or the caller gives up. */
    method Await(u: WeightUpdate, k: nat, ghost errand: Errand) returns (fate: Fate, ghost steps: seq<Step>)
      requires Tracked(u, k, Installing) && k < |u.order|
      modifies this, coordinator
      ensures Tracked(u, k, Installing) && Ran(old(coordinator.View()), steps)
      ensures (old(replaced).Some? ==> replaced.Some?) && calls == old(calls) + [Call(errand, u.order[k], fate)]
    {
      steps := OtherTraffic(u, k, Installing);
      fate := *;
      calls := calls + [Call(errand, u.order[k], fate)];
    }

    /** Sends the update RPC, which goes to a drained participant of the call's
        own update while that is open. */
    method SendRpc(u: WeightUpdate, k: nat) returns (fate: Fate, ghost steps: seq<Step>)
      requires Tracked(u, k, Installing) && k < |u.order|
      requires replaced.None? ==>
                 && Participant(coordinator.View(), u.order[k])
                 && coordinator.View().active.value.workers[u.order[k]].stage == Installing
      modifies this, coordinator
      ensures Tracked(u, k, Installing) && (old(replaced).Some? ==> replaced.Some?)
      ensures Ran(old(coordinator.View()), [UpdateRpc(u.order[k])] + steps)
      ensures calls == old(calls) + [Call(ToLoad, u.order[k], fate)]
    {
      ghost var start, rpc := coordinator.View(), UpdateRpc(u.order[k]);
      if replaced.None? { RunsOn(start, [], start, rpc); }
      fate, steps := Await(u, k, ToLoad);
      if replaced.None? { RunsThen(start, [] + [rpc], start, steps, coordinator.View()); }
    }

    /** Loads and, when asked, probes the k-th participant. */
    method Contact(u: WeightUpdate, k: nat, probing: bool)
        returns (failure: Option<Attempt>, garbled: bool, digest: Option<string>, ghost made: seq<Call>,
                 ghost steps: seq<Step>)
      requires Tracked(u, k, Installing) && k < |u.order|
      requires replaced.None? ==>
                 && Participant(coordinator.View(), u.order[k])
                 && coordinator.View().active.value.workers[u.order[k]].stage == Installing
      modifies this, coordinator
      ensures Tracked(u, k, Installing) && Ran(old(coordinator.View()), steps)
      ensures old(replaced).Some? ==> replaced.Some?
      ensures calls == old(calls) + made && Contacted(made, u.order[k], probing, failure, garbled, digest)
    {
      ghost var start := coordinator.View();
      var fate; ghost var more;
      fate, more := SendRpc(u, k);
      garbled, digest := fate.Garbled?, None;
      steps, made := [UpdateRpc(u.order[k])] + more, [Call(ToLoad, u.order[k], fate)];
      if fate.Abandoned? { failure := Some(Dropped); return; }
      if fate.Failing? { failure := Some(Lost(RpcFailed)); return; }
      failure := None;
      if probing {
        ghost var before := coordinator.View();
        fate, more := Await(u, k, ToProbe);
        if replaced.None? { RunsThen(start, steps, before, more, coordinator.View()); }
        steps, made := steps + more, made + [Call(ToProbe, u.order[k], fate)];
        failure, digest := ProbeEnds(fate);
      }
    }

    static method ProbeEnds(fate: Fate) returns (failure: Option<Attempt>, digest: Option<string>)
      ensures digest == if fate.Answered? then Some(fate.text) else None
      ensures failure == match fate
                         case Answered(_) => None
                         case Abandoned => Some(Dropped)
                         case _ => Some(Lost(ProbeFailed))
    {
      if fate.Abandoned? { return Some(Dropped), None; }
      if !fate.Answered? { return Some(Lost(ProbeFailed)), None; }
      return None, Some(fate.text);
    }

    /** Loads and probes the k-th participant, and verifies it. The answer of
        the update RPC is read only then, and may turn out malformed. */
    method LoadPhase(u: WeightUpdate, k: nat, probing: bool)
        returns (attempt: Attempt, ghost made: seq<Call>, ghost steps: seq<Step>)
      requires Tracked(u, k, Installing) && k < |u.order|
      requires replaced.None? ==>
                 && Participant(coordinator.View(), u.order[k])
                 && coordinator.View().active.value.workers[u.order[k]].stage == Installing
      modifies this, coordinator
      ensures Held(u, k) && Ran(old(coordinator.View()), steps) && (old(replaced).Some? ==> replaced.Some?)
      ensures attempt.Loaded? || attempt == Lost(BadResponse) ==>
                Tracked(u, k + 1, Pending) && (replaced.None? ==> coordinator.View().Open())
      ensures attempt.Lost? ==> attempt.cause in {RpcFailed, ProbeFailed, BadResponse, CoordinatorRefused}
      ensures attempt == Lost(CoordinatorRefused) ==> meddled
      ensures calls == old(calls) + made && made != [] && made in Explaining(attempt)
      ensures attempt.Loaded? ==>
                Round([Call(ToDrain, u.order[k], Answered(""))] + made, u.order[k], probing, attempt.digest)
    {
      ghost var start := coordinator.View();
      var failure, garbled, digest;
      failure, garbled, digest, made, steps := Contact(u, k, probing);
      ContactExplains(made, u.order[k], probing, failure, garbled, digest);
      ghost var before := coordinator.View();
      if replaced.None? { FollowingIsMine(before, u, k, Installing, meddled); }
      if failure.Some? { return failure.value, made, steps; }
      var outcome := VerifyOne(u, k);
      ghost var step := DoVerify(u.order[k], u.toVersion, u.expectedChecksum);
      if replaced.None? { RunsOn(start, steps, before, step); }
      steps := steps + [step];
      attempt :=
        if outcome != Ok then Lost(CoordinatorRefused) else if garbled then Lost(BadResponse) else Loaded(digest);
    }

    method VerifyOne(u: WeightUpdate, k: nat) returns (outcome: Outcome)
      requires Tracked(u, k, Installing) && k < |u.order|
      modifies coordinator
      ensures Reply(coordinator.View(), outcome)
           == Verify(old(coordinator.View()), u.order[k], u.toVersion, u.expectedChecksum)
      ensures Held(u, k)
      ensures if outcome == Ok then Tracked(u, k + 1, Pending) && (replaced.None? ==> coordinator.View().Open())
              else meddled
    {
      ghost var s := coordinator.View();
      var id := u.order[k];
      if replaced.None? {
        FollowingIsMine(s, u, k, Installing, meddled);
        StepKeepsMine(s, DoVerify(id, u.toVersion, u.expectedChecksum), u, k);
        if !meddled { VerifyGoesOn(s, u, k); }
        if Verify(s, id, u.toVersion, u.expectedChecksum).outcome == Ok { OwnVerify(s, u, k, meddled); }
      }
      outcome := coordinator.VerifyWorker(id, u.toVersion, u.expectedChecksum);
    }

    /** Drains, loads and probes the k-th participant. */
    method UpdateOne(u: WeightUpdate, k: nat, probing: bool)
        returns (attempt: Attempt, ghost made: seq<Call>, ghost steps: seq<Step>)
      requires Tracked(u, k, Pending) && k < |u.order|
      modifies this, coordinator
      ensures Held(u, k) && Ran(old(coordinator.View()), steps) && (old(replaced).Some? ==> replaced.Some?)
      ensures attempt.Loaded? || attempt == Lost(BadResponse) ==>
                Tracked(u, k + 1, Pending) && (replaced.None? ==> coordinator.View().Open())
      ensures attempt.Lost? ==> attempt.cause != ProbeMismatch
      ensures attempt == Lost(NoAdapter) <==> u.order[k] !in adapters
      ensures attempt in {Lost(NotSelected), Lost(CoordinatorRefused)} ==> meddled
      ensures calls == old(calls) + made && made in Explaining(attempt)
      ensures attempt.Loaded? ==> Round(made, u.order[k], probing, attempt.digest)
    {
      ghost var start := coordinator.View();
      var failure;
      failure, made, steps := DrainPhase(u, k);
      if failure.Some? {
        DrainExplains(made, u.order[k], failure.value);
        return failure.value, made, steps;
      }
      ghost var before := coordinator.View();
      ghost var loading, more;
      attempt, loading, more := LoadPhase(u, k, probing);
      LaterExplains(made, loading, attempt);
      if replaced.None? { RunsThen(start, steps, before, more, coordinator.View()); }
      made, steps := made + loading, steps + more;
    }

    /** The call's own update as it is now. */
    method Own(u: WeightUpdate, k: nat) returns (own: WeightUpdate)
      requires Held(u, k)
      ensures SameIdentity(u, own) && (replaced.None? ==> coordinator.active == Some(own))
    {
      own := if replaced.Some? then replaced.value else coordinator.active.value;
    }

    /** The handler: fail the current worker unless its record is settled, then
        abort unless that was done already. Either call raises again if the
        update has ended meanwhile. */
    method Recover(u: WeightUpdate, current: nat) returns (ghost steps: seq<Step>)
      requires Held(u, current) && current < |u.order|
      modifies coordinator
      ensures Held(u, current) && Ran(old(coordinator.View()), steps)
      ensures replaced.None? ==> !coordinator.View().Open()
      ensures replaced.None? ==> DoCommit !in steps
    {
      ghost var start := coordinator.View();
      var own := Own(u, current);
      var outcome;
      outcome, steps := FailCurrent(u, own, current);
      if outcome.Raised? { return; }
      if replaced.None? { own := coordinator.active.value; }
      if own.status != Aborted {
        ghost var before := coordinator.View();
        if replaced.None? {
          StepKeepsMine(before, DoAbort, u, current);
          RunsOn(start, steps, before, DoAbort);
        }
        outcome := coordinator.AbortUpdate();
        steps := steps + [DoAbort];
      }
    }

    method FailCurrent(u: WeightUpdate, own: WeightUpdate, current: nat)
        returns (outcome: Outcome, ghost steps: seq<Step>)
      requires Held(u, current) && current < |u.order| && SameIdentity(u, own)
      requires replaced.None? ==> coordinator.active == Some(own)
      modifies coordinator
      ensures Held(u, current) && Ran(old(coordinator.View()), steps)
      ensures outcome.Raised? && replaced.None? ==> !coordinator.View().Open()
      ensures DoCommit !in steps
    {
      ghost var start := coordinator.View();
      var id := u.order[current];
      outcome, steps := Ok, [];
      OrderIsKnown(start.(active := Some(own)), u, current);
      if own.workers[id].stage != Broken && own.workers[id].stage != Verified {
        if replaced.None? {
          MayFail(start, u, current);
          StepKeepsMine(start, DoFail(id, ""), u, current);
          RunsOn(start, [], start, DoFail(id, ""));
        }
        outcome := coordinator.FailWorker(id, "");
        steps := [] + [DoFail(id, "")];
      }
    }

    /** The whole update, with everybody else free to act at every await. Unless
        somebody begins another update before this call returns, the call's
        update ends committed with every participant serving the new version, or
        aborted with none at the new version or mid-update; or, if the caller
        cancels, possibly not at all. */
    method ExecuteDiskUpdate(args: BeginArgs, probing: bool) returns (ending: Ending, ghost steps: seq<Step>)
      requires Inv(coordinator.View())
      modifies this, coordinator
      ensures Ran(old(coordinator.View()), steps)
      ensures ending.Refused? <==> Begin(old(coordinator.View()), args).outcome != Ok
      ensures ending.Refused? ==> coordinator.View() == old(coordinator.View())
                                  && Begin(old(coordinator.View()), args).outcome == Raised(ending.error)
      ensures !ending.Refused? && replaced.None? ==>
                var u := NewUpdate(args, Dedup(Chosen(old(coordinator.View()), args)));
                Mine(coordinator.View(), u, 0) && Settled(ending, u, coordinator.View())
      ensures ending.Errored? && replaced.None? && DoCommit !in steps ==> Gone(coordinator.View())
      ensures !ending.Refused? ==>
                var u := NewUpdate(args, Dedup(Chosen(old(coordinator.View()), args)));
                && ending in Accounted(u, adapters, probing, calls)
                && (replaced.None? ==> (ending.Completed? <==> Flawless(u, adapters, calls, meddled)))
    {
      replaced, meddled, calls := None, false, [];
      ghost var start := coordinator.View();
      var outcome := coordinator.BeginUpdate(args);
      RunsOn(start, [], start, DoBegin(args));
      steps := [] + [DoBegin(args)];
      if outcome.Raised? { return Refused(outcome.error), steps; }
      BeginIsMine(start, args);
      BeginFollows(start, args);
      ghost var before := coordinator.View();
      ghost var more;
      ending, more := UpdateAll(coordinator.active.value, probing);
      if replaced.None? {
        RunsThen(start, steps, before, more, coordinator.View());
        if DoCommit !in steps + more { NoCommitNotServed(before, more); }
      }
      steps := steps + more;
    }

    /** How the call may end, its update having been the coordinator's all the
        time or not. */
    ghost predicate Concluded(u: WeightUpdate, probing: bool, ending: Ending)
      reads this, coordinator
    {
      && Held(u, 0) && !ending.Refused? && ending in Accounted(u, adapters, probing, calls)
      && (replaced.None? ==>
            Settled(ending, u, coordinator.View()) && (ending.Completed? <==> Flawless(u, adapters, calls, meddled)))
    }

    /** Updates the k-th participant, and calls the whole thing off if that
        fails. */
    method Turn(u: WeightUpdate, k: nat, probing: bool, ghost results: map<string, Option<string>>)
        returns (ending: Option<Ending>, digest: Option<string>, ghost made: seq<Call>, ghost steps: seq<Step>)
      requires Tracked(u, k, Pending) && k < |u.order| && calls in Notes(results, probing)
      modifies this, coordinator
      ensures Ran(old(coordinator.View()), steps) && (old(replaced).Some? ==> replaced.Some?)
      ensures calls == old(calls) + made
      ensures ending.None? ==>
                && Tracked(u, k + 1, Pending) && (replaced.None? ==> coordinator.View().Open())
                && u.order[k] in adapters && Round(made, u.order[k], probing, digest)
      ensures ending.Some? ==> Concluded(u, probing, ending.value)
    {
      ghost var start := coordinator.View();
      var attempt;
      attempt, made, steps := UpdateOne(u, k, probing);
      if attempt.Loaded? { return None, attempt.digest, made, steps; }
      AttemptAccounts(old(calls), results, made, attempt, u, k, adapters, probing);
      ghost var before := coordinator.View();
      CompletesIff(
        if attempt.Dropped? then Cancelled else Errored(attempt.cause), u, adapters, probing, calls, meddled);
      if attempt.Dropped? {
        if replaced.None? { GivenUp(before, u, k); }
        return Some(Cancelled), None, made, steps;
      }
      ghost var more := Recover(u, k);
      if replaced.None? { RunsThen(start, steps, before, more, coordinator.View()); }
      return Some(Errored(attempt.cause)), None, made, steps + more;
    }

    /** A turn, and the note of what the probe said. */
    method NextTurn(u: WeightUpdate, k: nat, probing: bool, results: map<string, Option<string>>)
        returns (failed: Option<Ending>, results': map<string, Option<string>>, ghost steps: seq<Step>)
      requires Tracked(u, k, Pending) && k < |u.order| && calls in Notes(results, probing)
      requires results.Keys == SetOf(u.order[..k]) <= adapters && DistinctOrder(u.order)
      modifies this, coordinator
      ensures Ran(old(coordinator.View()), steps) && (old(replaced).Some? ==> replaced.Some?)
      ensures failed.None? ==>
                && Tracked(u, k + 1, Pending) && (replaced.None? ==> coordinator.View().Open())
                && results'.Keys == SetOf(u.order[..k + 1]) <= adapters && calls in Notes(results', probing)
      ensures failed.Some? ==> Concluded(u, probing, failed.value)
    {
      var digest; ghost var made;
      failed, digest, made, steps := Turn(u, k, probing, results);
      results' := results;
      if failed.None? {
        NextIsNew(u.order, k);
        NoteRound(old(calls), made, results, u.order[k], probing, digest);
        results' := results[u.order[k] := digest];
      }
    }

    /** The loop over the participants. */
    method UpdateEach(u: WeightUpdate, probing: bool)
        returns (failed: Option<Ending>, results: map<string, Option<string>>, ghost steps: seq<Step>)
      requires Tracked(u, 0, Pending) && replaced.None? && coordinator.View().Open() && calls == []
      requires DistinctOrder(u.order)
      modifies this, coordinator
      ensures Ran(old(coordinator.View()), steps)
      ensures failed.None? ==>
                && Tracked(u, |u.order|, Pending) && (replaced.None? ==> coordinator.View().Open())
                && results.Keys == SetOf(u.order) <= adapters && calls in Notes(results, probing)
      ensures failed.Some? ==> Concluded(u, probing, failed.value)
    {
      ghost var start := coordinator.View();
      results, steps := map[], [];
      NothingNoted(probing);
      for k := 0 to |u.order|
        invariant Tracked(u, k, Pending) && Ran(start, steps) && (replaced.None? ==> coordinator.View().Open())
        invariant results.Keys == SetOf(u.order[..k]) <= adapters && calls in Notes(results, probing)
      {
        ghost var before := coordinator.View();
        ghost var more;
        failed, results, more := NextTurn(u, k, probing, results);
        if replaced.None? { RunsThen(start, steps, before, more, coordinator.View()); }
        steps := steps + more;
        if failed.Some? { return; }
      }
      TakeTwice(u.order, |u.order|, |u.order|);
      failed := None;
    }

    /** The loop, and the commit. */
    method UpdateAll(u: WeightUpdate, probing: bool) returns (ending: Ending, ghost steps: seq<Step>)
      requires Tracked(u, 0, Pending) && replaced.None? && coordinator.View().Open() && calls == []
      requires u.order != [] && DistinctOrder(u.order)
      modifies this, coordinator
      ensures Ran(old(coordinator.View()), steps) && Concluded(u, probing, ending)
    {
      ghost var start := coordinator.View();
      var failed, results;
      failed, results, steps := UpdateEach(u, probing);
      if failed.Some? { return failed.value, steps; }
      ghost var before := coordinator.View();
      ghost var more;
      ending, more := Conclude(u, results, probing);
      if replaced.None? { RunsThen(start, steps, before, more, coordinator.View()); }
      steps := steps + more;
    }

    method Conclude(u: WeightUpdate, results: map<string, Option<string>>, ghost probing: bool)
        returns (ending: Ending, ghost steps: seq<Step>)
      requires Tracked(u, |u.order|, Pending) && (replaced.None? ==> coordinator.View().Open())
      requires results.Keys == SetOf(u.order) <= adapters && u.order != [] && calls in Notes(results, probing)
      modifies coordinator
      ensures Ran(old(coordinator.View()), steps) && Concluded(u, probing, ending)
    {
      if replaced.None? { FollowingIsMine(coordinator.View(), u, |u.order|, Pending, meddled); }
      ending, steps := Finish(u, results);
      FinishAccounts(ending, u, adapters, probing, calls, results);
      if replaced.None? { CompletesIff(ending, u, adapters, probing, calls, meddled); }
    }

    method Finish(u: WeightUpdate, results: map<string, Option<string>>)
        returns (ending: Ending, ghost steps: seq<Step>)
      requires Held(u, |u.order|) && results.Keys == SetOf(u.order) && u.order != []
      requires replaced.None? ==> coordinator.View().Open()
      modifies coordinator
      ensures Held(u, 0) && Ran(old(coordinator.View()), steps)
      ensures replaced.None? ==> Settled(ending, u, coordinator.View())
      ensures if Disagree(results) then ending == Errored(ProbeMismatch)
              else ending == Completed(results) || (replaced.Some? && ending == Errored(CoordinatorRefused))
    {
      ghost var start := coordinator.View();
      if Disagree(results) {
        FewerVerified(start, u, |u.order|, |u.order| - 1);
        steps := Recover(u, |u.order| - 1);
        return Errored(ProbeMismatch), steps;
      }
      if replaced.None? {
        AllVerifiedAtEnd(start, u);
        CommitServes(start);
        StepKeepsMine(start, DoCommit, u, 0);
        RunsOn(start, [], start, DoCommit);
      }
      var outcome := coordinator.CommitUpdate();
      steps := [] + [DoCommit];
      ending := if outcome == Ok then Completed(results) else Errored(CoordinatorRefused);
    }
  }

  lemma NextIsNew(order: seq<string>, k: nat)
    requires DistinctOrder(order) && k < |order|
    ensures order[k] !in SetOf(order[..k]) && SetOf(order[..k + 1]) == SetOf(order[..k]) + {order[k]}
  {
    assert order[..k + 1] == order[..k] + [order[k]];
  }

  lemma FewerVerified(s: State, u: WeightUpdate, k: nat, j: nat)
    requires j <= k
    ensures Mine(s, u, k) ==> Mine(s, u, j)
  {}

  /** Where a call that is cancelled leaves its update. */
  lemma GivenUp(s: State, u: WeightUpdate, k: nat)
    requires Mine(s, u, k) && k < |u.order|
    ensures Settled(Cancelled, u, s)
  {
    if s.Open() {
      WaitingIsDraining(s, u, k);
      CoupledAt(s, k);
      assert HeldUp(s, k) || StageOf(s.active.value, k) == Broken || StageOf(s.active.value, k) == Verified;
    }
  }

  // What a cancelled call leaves behind.

  /** An open update stays open exactly until it is committed, aborted or found
      past its deadline, and as long as it is open no other can begin. */
  lemma OpenUntilEnded(s: State, step: Step, a: BeginArgs)
    requires Inv(s) && s.Open() && Legal(s, step)
    ensures Apply(s, step).Open() <==> !Ends(s, step)
    ensures Apply(s, step).Open() ==> Begin(Apply(s, step), a).outcome == Raised(ValidationError)
  {}

  /** A cancelled call can leave the update it began, held up at its first
      participant: cancelled at its first await, nothing else has happened. */
  lemma CancelledAtFirstAwait(s: State, a: BeginArgs)
    requires Inv(s) && Begin(s, a).outcome == Ok
    ensures var s' := Begin(s, a).state;
      s'.active.Some? && Settled(Cancelled, s'.active.value, s') && HeldUp(s', 0)
  {
    BeginIsMine(s, a);
    var s' := Begin(s, a).state;
    GivenUp(s', s'.active.value, 0);
    WaitingIsDraining(s', s'.active.value, 0);
    CoupledAt(s', 0);
    assert s'.active.value.order[0] in SetOf(s'.active.value.order);
  }

  /** A step that ends the update, or settles the participant. */
  predicate Helps(s: State, step: Step, id: string)
    requires s.Open()
  {
    Ends(s, step) || (step.DoVerify? && step.id == id) || (step.DoFail? && step.id == id)
  }

  lemma OutOfServiceStays(s: State, step: Step, id: string)
    requires Inv(s) && s.Open() && Legal(s, step) && !Helps(s, step, id)
    requires id in s.active.value.workers && id in s.workers && s.workers[id].lifecycle in {Draining, Updating}
    ensures Apply(s, step).Open()
    ensures id in Apply(s, step).workers && Apply(s, step).workers[id].lifecycle in {Draining, Updating}
  {
    match step
    case DoVerify(p, v, c) => VerifyLeavesOut(s, p, v, c, id);
    case DoDrain(p) => DrainLeavesOut(s, p, id);
    case DoFail(p, e) => FailLeavesOut(s, p, e, id);
    case _ =>
  }

  lemma VerifyLeavesOut(s: State, p: string, v: int, c: Option<string>, id: string)
    requires Inv(s) && s.Open() && p != id && id in s.workers && s.workers[id].lifecycle in {Draining, Updating}
    ensures var s' := Verify(s, p, v, c).state;
      s'.Open() && id in s'.workers && s'.workers[id].lifecycle in {Draining, Updating}
  {
    if Verify(s, p, v, c).outcome == Ok {
      InstalledLeavesOut(s, p, v, c, id);
    } else {
      FailLeavesOut(s, p, "wrong version", id);
      FailLeavesOut(s, p, "parameter checksum mismatch", id);
    }
  }

  lemma InstalledLeavesOut(s: State, p: string, v: int, c: Option<string>, id: string)
    requires s.Open() && p in s.active.value.workers && p in s.workers && p != id
    requires id in s.workers && s.workers[id].lifecycle in {Draining, Updating}
    ensures var s' := Installed(s, p, v, c);
      s'.Open() && id in s'.workers && s'.workers[id].lifecycle in {Draining, Updating}
  {}

  lemma DrainLeavesOut(s: State, p: string, id: string)
    requires s.Open() && id in s.workers && s.workers[id].lifecycle in {Draining, Updating}
    ensures var s' := Drain(s, p).state;
      s'.Open() && id in s'.workers && s'.workers[id].lifecycle in {Draining, Updating}
  {}

  lemma FailLeavesOut(s: State, p: string, e: string, id: string)
    requires s.Open() && p != id && id in s.workers && s.workers[id].lifecycle in {Draining, Updating}
    ensures var s' := Fail(s, p, e).state;
      s'.Open() && id in s'.workers && s'.workers[id].lifecycle in {Draining, Updating}
  {}

  lemma HeldUpStays(s: State, step: Step, k: nat)
    requires HeldUp(s, k) && Legal(s, step) && !Helps(s, step, s.active.value.order[k])
    ensures HeldUp(Apply(s, step), k) && SameIdentity(s.active.value, Apply(s, step).active.value)
  {
    StepKeepsInv(s, step);
    assert s.active.value.order[k] in SetOf(s.active.value.order);
    OutOfServiceStays(s, step, s.active.value.order[k]);
    StepKeepsIdentity(s, step);
  }

  ghost predicate NobodyHelps(s: State, steps: seq<Step>, id: string) {
    steps == []
    || var before := Run(s, steps[..|steps| - 1]);
       NobodyHelps(s, steps[..|steps| - 1], id) && before.Open() && !Helps(before, steps[|steps| - 1], id)
  }

  /** And there it stays, whatever else anybody does, until the update is ended
      or the participant verified or failed: it stays out of service, and every
      attempt to begin another update is refused. */
  lemma {:induction false} CancelledStaysStuck(s: State, steps: seq<Step>, k: nat, a: BeginArgs)
    requires HeldUp(s, k) && LegalRun(s, steps) && NobodyHelps(s, steps, s.active.value.order[k])
    ensures HeldUp(Run(s, steps), k) && SameIdentity(s.active.value, Run(s, steps).active.value)
    ensures Begin(Run(s, steps), a).outcome == Raised(ValidationError)
  {
    if steps != [] {
      CancelledStaysStuck(s, steps[..|steps| - 1], k, a);
      HeldUpStays(Run(s, steps[..|steps| - 1]), steps[|steps| - 1], k);
    }
  }

  // What another update can do to the call.

  /** One worker is to go to the next version. */
  function JustThis(updateId: string, worker: string, version: int): BeginArgs {
    BeginArgs(version, version + 1, StopTheWorld, 0, 100, None, Some([worker]), updateId)
  }

  /** The call's begin, drain and update RPC; meanwhile somebody else aborts, and
      the worker reports that it is ready as before. */
  function Interrupted(mine: string, id: string, version: int): seq<Step> {
    [DoBegin(JustThis(mine, id, version)), DoDrain(id), UpdateRpc(id), DoAbort, Heartbeat(id, Ready, version, 0, 0)]
  }

  /** Somebody begins and drains for another update to the same version. */
  function Superseded(other: string, id: string, version: int): seq<Step> {
    [DoBegin(JustThis(other, id, version)), DoDrain(id)]
  }

  /** The call's verification and commit. */
  function Resumed(id: string, version: int): seq<Step> {
    [DoVerify(id, version + 1, None), DoCommit]
  }

  /** The worker alone is being drained for an update, or is ready for one. */
  ghost predicate Alone(s: State, updateId: string, id: string, version: int) {
    && Inv(s) && s.Open() && s.active == Some(NewUpdate(JustThis(updateId, id, version), [id]))
    && id in s.workers && s.workers[id].lifecycle == Draining && s.workers[id].InFlight() == 0
  }

  ghost predicate Idling(s: State, id: string, version: int) {
    && Inv(s) && !s.Open() && id in s.workers && s.workers[id].lifecycle == Ready && s.workers[id].version == version
    && s.workers[id].InFlight() == 0
  }

  lemma BeginsAlone(s: State, updateId: string, id: string, version: int)
    requires Idling(s, id, version)
    ensures var a := JustThis(updateId, id, version);
      Begin(s, a).outcome == Ok && Alone(Begin(s, a).state, updateId, id, version)
  {
    var a := JustThis(updateId, id, version);
    assert Fit(s.workers, id, version);
    assert FirstUnfit(s.workers, [id][1..], version) == None;
    BeginKeepsInv(s, a);
    assert Dedup([id]) == [id] by { assert [id][..0] == []; }
    assert SetOf([id]) == {id};
  }

  /** Somebody aborts while the worker loads, and it reports ready again. */
  lemma AbortsAlone(s: State, updateId: string, id: string, version: int)
    requires Alone(s, updateId, id, version)
    ensures var s1 := Drain(s, id).state;
      var s2 := Abort(s1).state;
      var s3 := Apply(s2, Heartbeat(id, Ready, version, 0, 0));
      && Drain(s, id).outcome == Ok && Legal(s1, UpdateRpc(id)) && Legal(s2, Heartbeat(id, Ready, version, 0, 0))
      && Idling(s3, id, version) && s3.active == s2.active
      && s2.active.value.id == updateId && s2.active.value.status == Aborted
  {
    DrainKeepsInv(s, id);
    EndKeepsInv(Drain(s, id).state, 0);
    StepKeepsInv(Abort(Drain(s, id).state).state, Heartbeat(id, Ready, version, 0, 0));
  }

  lemma CommitsAlone(s: State, updateId: string, id: string, version: int)
    requires Alone(s, updateId, id, version)
    ensures var s1 := Drain(s, id).state;
      var reply := Verify(s1, id, version + 1, None);
      && Drain(s, id).outcome == Ok && reply.outcome == Ok && Commit(reply.state).outcome == Ok
      && Commit(reply.state).state.active.value.id == updateId
      && Commit(reply.state).state.active.value.status == Committed
  {
    assert [id][..0] == [];
  }

  lemma TwoSteps(s: State, a: Step, b: Step)
    requires Legal(s, a) && Legal(Apply(s, a), b)
    ensures Reaches(s, [a, b], Apply(Apply(s, a), b))
  {
    ReachesNext(s, [], s, a);
    ReachesNext(s, [] + [a], Apply(s, a), b);
    assert [] + [a] + [b] == [a, b];
  }

  lemma FiveSteps(s: State, a: Step, b: Step, c: Step, d: Step, e: Step)
    requires Legal(s, a) && Legal(Apply(s, a), b) && Legal(Apply(Apply(s, a), b), c)
    requires var s3 := Apply(Apply(Apply(s, a), b), c); Legal(s3, d) && Legal(Apply(s3, d), e)
    ensures Reaches(s, [a, b, c, d, e], Apply(Apply(Apply(Apply(Apply(s, a), b), c), d), e))
  {
    var s2 := Apply(Apply(s, a), b);
    TwoSteps(s, a, b);
    ReachesNext(s, [a, b], s2, c);
    assert [a, b] + [c] == [a, b, c];
    TwoSteps(Apply(s2, c), d, e);
    ReachesMore(s, [a, b, c], Apply(s2, c), [d, e], Apply(Apply(Apply(s2, c), d), e));
    assert [a, b, c] + [d, e] == [a, b, c, d, e];
  }

  lemma IsInterrupted(s: State, mine: string, id: string, version: int) returns (s': State)
    requires Idling(s, id, version)
    ensures Begin(s, JustThis(mine, id, version)).outcome == Ok
    ensures Reaches(s, Interrupted(mine, id, version), s') && Idling(s', id, version)
    ensures s'.active.Some? && s'.active.value.id == mine && s'.active.value.status == Aborted
  {
    var a := JustThis(mine, id, version);
    BeginsAlone(s, mine, id, version);
    AbortsAlone(Begin(s, a).state, mine, id, version);
    FiveSteps(s, DoBegin(a), DoDrain(id), UpdateRpc(id), DoAbort, Heartbeat(id, Ready, version, 0, 0));
    s' := Apply(Abort(Drain(Begin(s, a).state, id).state).state, Heartbeat(id, Ready, version, 0, 0));
  }

  lemma IsSuperseded(s: State, other: string, id: string, version: int) returns (s': State)
    requires Idling(s, id, version)
    ensures Reaches(s, Superseded(other, id, version), s')
    ensures var reply := Verify(s', id, version + 1, None);
      && reply.outcome == Ok && Commit(reply.state).outcome == Ok
      && Commit(reply.state).state.active.value.id == other
      && Commit(reply.state).state.active.value.status == Committed
  {
    var a := JustThis(other, id, version);
    BeginsAlone(s, other, id, version);
    CommitsAlone(Begin(s, a).state, other, id, version);
    TwoSteps(s, DoBegin(a), DoDrain(id));
    s' := Drain(Begin(s, a).state, id).state;
  }

  /** If somebody else does begin another update before the call returns, its
      verification and its commit can be about that one: both succeed, although
      the call's own update was aborted. */
  lemma AnotherUpdateIsCommitted(s: State, mine: string, other: string, id: string, version: int)
    requires Idling(s, id, version)
    ensures Begin(s, JustThis(mine, id, version)).outcome == Ok
    ensures var first, next := Interrupted(mine, id, version), Superseded(other, id, version);
      var aborted, ready, end := Run(s, first), Run(s, first + next), Run(s, first + next + Resumed(id, version));
      && LegalRun(s, first + next + Resumed(id, version))
      && aborted.active.Some? && aborted.active.value.id == mine && aborted.active.value.status == Aborted
      && Verify(ready, id, version + 1, None).outcome == Ok
      && Commit(Verify(ready, id, version + 1, None).state).outcome == Ok
      && end.active.Some? && end.active.value.id == other && end.active.value.status == Committed
  {
    var s1 := IsInterrupted(s, mine, id, version);
    var s2 := IsSuperseded(s1, other, id, version);
    TwoSteps(s2, DoVerify(id, version + 1, None), DoCommit);
    ReachesMore(s, Interrupted(mine, id, version), s1, Superseded(other, id, version), s2);
    ReachesMore(s, Interrupted(mine, id, version) + Superseded(other, id, version), s2, Resumed(id, version),
                Commit(Verify(s2, id, version + 1, None).state).state);
  }
}
