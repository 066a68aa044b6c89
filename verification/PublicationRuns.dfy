/**
 * Whole runs: any sequence of activations, of processes that die in the middle of one, of explicit
 * resumptions, and of the stages before publication preparing the next head.
 */
module PublicationRuns {
  import opened Common
  import opened PublicationModel
  import opened PublicationLedger
  import opened PublicationRemote
  import opened PublishedHead

  datatype Happening =
    | Activate(answers: Answers)
    | Die(answers: Answers, survives: nat)   // only this many events of the activation still happened
    | Reopen
    | ResumeIntegrated
    | Redeliver(next: Job)

  /** What an explicit resumption makes of a parked job. */
  function Reopened(job: Job): Job {
    if job.phase == Blocked && job.pausePhase.Some? then
      job.(phase := job.pausePhase.value, pausePhase := None, resumePhase := None)
    else if job.phase == Blocked && job.resumePhase.Some? then
      job.(phase := job.resumePhase.value, resumePhase := None)
    else if job.phase == PublicationPending && job.retries == MAX_OPERATION_ATTEMPTS then
      job.(phase := if job.resumePhase.Some? && job.resumePhase.value in {Publishing, Merging, Merged}
                    then job.resumePhase.value else Publishing,
           resumePhase := None, retries := 0)
    else job
  }

  /** An accepted job whose publication is already merged goes straight back to its closeout. */
  predicate CanResumeIntegrated(git: Git, job: Job) {
    && job.phase == Accepted
    && job.integrated.Some? && job.pr.Some? && job.publication.Some?
    && job.published == job.publication
    && job.integratedPublication == job.publication
    && git.tree(job.candidate) == git.tree(job.publication.value)
  }

  /** What development, review and publication preparation may do to a job they own. */
  predicate Prepared(before: Job, next: Job) {
    && before.phase in {Accepted, Repairing, Escalating}
    && JobInv(next)
    && next.phase in {Accepted, Repairing, Escalating, Publishing, Blocked}
    && next.integrated in {before.integrated, None}
    && next.mergeIntent in {before.mergeIntent, None}
    && next.record in {before.record, None}
    && next.pr == before.pr
  }

  method SaveAs(stage: PublishedHeadStage, next: Job)
    requires stage.Settled() && JobInv(next)
    requires stage.job.phase != Completed && next.phase != Completed
    requires IntentAdvances(stage.job.mergeIntent, next.mergeIntent)
    requires next.integrated in {stage.job.integrated, None}
    requires next.pr == stage.job.pr && (Moves(stage.job, next) ==> Early(stage.job))
    modifies stage`job, stage`history
    ensures stage.Settled() && stage.job == next && stage.history == old(stage.history) + [Saved(next)]
  {
    hide Legal;
    hide Replay;
    hide LedgerInv;
    stage.job := next;
    stage.Append(Saved(next));
  }

  /** Read the last saved job back. */
  method Reload(stage: PublishedHeadStage)
    requires stage.Lawful()
    modifies stage`job
    ensures stage.Settled()
  {
    stage.job := Replay(stage.start, stage.history).durable;
  }

  /** The job a restart would read after this history. */
  function Durable(start: Job, h: seq<Event>): Job { Replay(start, h).durable }

  /** What a complete activation adds to a history `h`. */
  ghost predicate Activated(stage: PublishedHeadStage, a: Answers, h: seq<Event>, after: seq<Event>) {
    var job := Durable(stage.start, h);
    && Legal(stage.contract, stage.git, stage.start, after)
    && h + [Began] <= after
    && (!InPublication(job.phase) ==> after == h + [Began])
    && (job.phase == Publishing && stage.Smooth(job, a) ==> Durable(stage.start, after).phase == Completed)
  }

  /** A history extended by one save, unless the save would change nothing. */
  function Resaved(h: seq<Event>, before: Job, next: Job): seq<Event> {
    if next == before then h else h + [Saved(next)]
  }

  /** What one happening makes of the history. A death keeps a part of what the activation would have done. */
  ghost predicate Happened(stage: PublishedHeadStage, happening: Happening, h: seq<Event>, after: seq<Event>) {
    var job := Durable(stage.start, h);
    match happening
    case Activate(a) => Activated(stage, a, h, after)
    case Die(a, survives) =>
      exists whole :: Activated(stage, a, h, whole)
        && after == whole[..if |h| + survives <= |whole| then |h| + survives else |whole|]
    case Reopen => after == Resaved(h, job, Reopened(job))
    case ResumeIntegrated => after == if CanResumeIntegrated(stage.git, job) then h + [Saved(job.(phase := Merged))] else h
    case Redeliver(next) => after == if Prepared(job, next) then h + [Saved(next)] else h
  }

  /** One activation; an error that escapes it ends the process, which starts again from the store. */
  method ActivateOnce(stage: PublishedHeadStage, a: Answers)
    requires stage.Settled()
    modifies stage`job, stage`history
    ensures stage.Settled() && Activated(stage, a, old(stage.history), stage.history)
  {
    hide Replay;
    hide LedgerInv;
    var flow := stage.Advance(a);
    if flow == Raised { Reload(stage); }
  }

  /** The process dies in the middle of an activation and restarts from the last saved job. */
  method DieDuring(stage: PublishedHeadStage, a: Answers, survives: nat)
    requires stage.Settled()
    modifies stage`job, stage`history
    ensures stage.Settled() && Happened(stage, Die(a, survives), old(stage.history), stage.history)
  {
    hide Legal;
    hide Replay;
    hide LedgerInv;
    var before := |stage.history|;
    ActivateOnce(stage, a);
    ghost var whole := stage.history;
    var kept := if before + survives <= |stage.history| then before + survives else |stage.history|;
    CrashLeavesLegalHistory(stage.contract, stage.git, stage.start, stage.history, kept);
    LegalKeepsInvariant(stage.contract, stage.git, stage.start, stage.history[..kept]);
    stage.history := stage.history[..kept];
    assert Activated(stage, a, old(stage.history), whole);
    Reload(stage);
  }

  method Happen(stage: PublishedHeadStage, happening: Happening)
    requires stage.Settled()
    modifies stage`job, stage`history
    ensures stage.Settled() && old(stage.history) <= stage.history
    ensures Happened(stage, happening, old(stage.history), stage.history)
  {
    hide Legal;
    hide Replay;
    match happening {
      case Activate(a) =>
        ActivateOnce(stage, a);
      case Die(a, survives) =>
        DieDuring(stage, a, survives);
      case Reopen =>
        if Reopened(stage.job) != stage.job { SaveAs(stage, Reopened(stage.job)); }
      case ResumeIntegrated =>
        if CanResumeIntegrated(stage.git, stage.job) { SaveAs(stage, stage.job.(phase := Merged)); }
      case Redeliver(next) =>
        if Prepared(stage.job, next) { SaveAs(stage, next); }
    }
  }

  /** The `k`-th happening led from one history of the trace to the next. */
  ghost predicate StepOf(stage: PublishedHeadStage, happenings: seq<Happening>, trace: seq<seq<Event>>, k: nat) {
    && k < |happenings| && k + 1 < |trace|
    && trace[k] <= trace[k + 1] && Happened(stage, happenings[k], trace[k], trace[k + 1])
  }

  /**
   * Every run leaves a history the protocol admits, so everything proved of legal histories holds of it.
   * `trace` holds the histories before and after each happening, and each is what that happening makes of
   * the one before.
   */
  method Run(contract: Contract, git: Git, start: Job, happenings: seq<Happening>)
    returns (stage: PublishedHeadStage, trace: seq<seq<Event>>)
    requires Untouched(start)
    ensures stage.contract == contract && stage.git == git && stage.start == start
    ensures |trace| == |happenings| + 1 && trace[0] == [] && trace[|happenings|] == stage.history
    ensures Legal(contract, git, start, stage.history)
    ensures forall k :: 0 <= k < |happenings| ==> StepOf(stage, happenings, trace, k)
  {
    hide Legal;
    hide Replay;
    hide Happened;
    stage := new PublishedHeadStage(contract, git, start);
    trace := [stage.history];
    for n := 0 to |happenings|
      invariant fresh(stage) && stage.Settled() && stage.contract == contract && stage.git == git && stage.start == start
      invariant |trace| == n + 1 && trace[0] == [] && trace[n] == stage.history
      invariant forall k :: 0 <= k < n ==> StepOf(stage, happenings, trace, k)
    {
      ghost var before := trace;
      Happen(stage, happenings[n]);
      trace := trace + [stage.history];
      forall k | 0 <= k < n ensures StepOf(stage, happenings, trace, k) {
        assert StepOf(stage, happenings, before, k);
      }
    }
  }

  // ---- A delivery that goes well ----

  function GoodGit(): Git { Objects((s: Sha) => 0, (a: Sha, b: Sha) => true, (a: Sha, b: Sha) => true) }

  function GoodStart(): Job {
    Job(Publishing, None, None, 0, 5, None, false, None, Some(8), None, 0, 0, None, None, None, None, None, None,
        ByReview, Some(Acceptance(5, 0)), None, None, Some(Integration(0, 5, 0, 3, 4, 6, 0)), None, 0)
  }

  function GoodLive(state: PrState): Live {
    Live(state, 0, 8, 0, 0, 4, 0, state == Open, if state == MergedState then Some(9) else None, 0, 0, 0, [4])
  }

  function GoodAnswers(): Answers {
    var stillOpen, merged := Got(GoodLive(Open)), Got(GoodLive(MergedState));
    Answers(
      (p: Place) => false, (p: Place) => true, (p: Place) => Got(Heads(Some(if p == AtGate then 8 else 3), 4)),
      Got(Absent), false, stillOpen, Done, PushDone, Got(Absent), Got(NoPull), Written(7), false, stillOpen,
      Got(Observation(7, 8, NoChecks, false)), false, stillOpen, stillOpen, Got(true), stillOpen, true, true,
      stillOpen, true, MergedAs(9), Done, merged, merged, false, TicketNowClosed)
  }

  /** With friendly answers one activation takes a prepared head from its push to the closed ticket. */
  method FriendlyDelivery() returns (phase: Phase)
    ensures phase == Completed
  {
    var stage := new PublishedHeadStage(Change(0, 0, 0), GoodGit(), GoodStart());
    assert stage.LocatesFresh(GoodStart(), GoodAnswers());
    assert stage.PublishesFresh(GoodStart(), GoodAnswers());
    var published := stage.Published(GoodStart(), 7);
    assert stage.ChecksPass(published, GoodAnswers());
    var checked := stage.Checked(published, GoodAnswers().checks.value);
    assert stage.Merges(checked, GoodAnswers());
    assert stage.ClosesOut(checked.(integrated := Some(9)), GoodAnswers());
    var flow := stage.Advance(GoodAnswers());
    phase := stage.job.phase;
  }

  // ---- The race that an outsider can win ----

  /** The same ticket with its head published and its checks observed, ready for the gate. */
  function GateStart(): Job {
    GoodStart().(published := Some(8), pr := Some(7), checks := Some(Observation(7, 8, NoChecks, false)))
  }

  /** Once the final read is over, nobody looks at the pull request until the merge call has returned. */
  lemma RaceIsTruthful(stage: PublishedHeadStage, h: seq<Event>)
    requires |h| == 13 && h[0] == RequirementsRead(true) && h[1] == PrRead(7, GoodLive(Open)) && h[2].Saved?
    requires stage.MergeTrail(h[3..], 7, GoodAnswers())
    ensures Truthful(map[7 := RemoteMerge(2, 8, 9)], h)
    ensures h[12].Saved? && h[12].job.phase == Completed && h[12].job.pr == Some(7)
  {
    assert forall n :: 3 <= n < 13 ==> h[n] == h[3..][n - 3];
  }

  /** The job passes its gate, its merge succeeds and closes out. */
  lemma GateStartDelivers(stage: PublishedHeadStage)
    requires stage.contract == Change(0, 0, 0) && stage.git == GoodGit()
    ensures stage.Delivers(GateStart(), GoodAnswers())
  {
    assert stage.Merges(GateStart(), GoodAnswers());
    assert stage.ClosesOut(GateStart().(integrated := Some(9)), GoodAnswers());
  }

  method AtTheGate() returns (stage: PublishedHeadStage)
    ensures fresh(stage) && stage.contract == Change(0, 0, 0) && stage.git == GoodGit() && stage.start == GateStart()
    ensures stage.Settled() && stage.Running() && stage.Book().current && stage.history == [RequirementsRead(true)]
    ensures stage.job == GateStart()
  {
    hide Legal;
    stage := new PublishedHeadStage(Change(0, 0, 0), GoodGit(), GateStart());
    stage.Append(RequirementsRead(true));
  }

  /** The routine itself takes the ticket from its gate to the end. */
  method PassTheGate() returns (stage: PublishedHeadStage)
    ensures stage.contract == Change(0, 0, 0) && stage.git == GoodGit() && stage.start == GateStart() && stage.Lawful()
    ensures |stage.history| == 13 && stage.history[0] == RequirementsRead(true)
    ensures stage.history[1] == PrRead(7, GoodLive(Open)) && stage.history[2].Saved? && stage.history[2].job.phase == Merging
    ensures stage.MergeTrail(stage.history[3..], 7, GoodAnswers())
  {
    hide Legal, Replay, GoodAnswers, LedgerInv, JobInv, Moves;
    stage := AtTheGate();
    GateStartDelivers(stage);
    FinalReadIsOpen();
    var flow := stage.GateAndMerge(GoodAnswers());
  }

  /**
   * The gate, the merge and the closeout of the routine, on a remote where somebody else merges the pull
   * request after its final read and before the first save in `Merging`: every answer is truthful, no merge
   * intent existed when the pull request was merged, and the ticket completes.
   */
  method OutsiderWinsTheRace() returns (history: seq<Event>, merges: map<nat, RemoteMerge>)
    ensures Untouched(GateStart()) && Legal(Change(0, 0, 0), GoodGit(), GateStart(), history)
    ensures Truthful(merges, history)
    ensures exists k :: 7 in merges && merges[7].at <= k < |history| && NoneMerging(history[..k])
              && history[k].Saved? && history[k].job.phase == Merging
    ensures |history| > 0 && history[|history| - 1].Saved?
    ensures history[|history| - 1].job.phase == Completed && history[|history| - 1].job.pr == Some(7)
  {
    hide Legal, Replay, GoodAnswers, LedgerInv, Truthful;
    var stage := PassTheGate();
    history, merges := stage.history, map[7 := RemoteMerge(2, 8, 9)];
    RaceIsTruthful(stage, history);
    assert merges[7].at <= 2 && NoneMerging(history[..2]) && history[2].Saved?;
  }

  lemma FinalReadIsOpen()
    ensures GoodAnswers().final == Got(GoodLive(Open))
  {
  }
}
