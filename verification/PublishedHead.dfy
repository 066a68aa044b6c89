/**
 * The publish, check and merge routine of one Ticket, as it runs: the job is changed in place, saved
 * between remote calls, and every remote answer is arbitrary. `history` is what the outside world
 * and the durable store have seen; `Advance` is one activation of the engine in a publication phase.
 */
module PublishedHead {
  import opened Common
  import opened PublicationModel
  import opened PublicationLedger

  /** A remote read: a value, a GitHub error that may settle by itself, any other GitHub error, or an I/O error. */
  datatype Read<+T> = Got(value: T) | Unsettled | Refused | Offline

  /** A remote operation without a value. */
  datatype Op = Done | OpUnsettled | OpRefused | OpOffline

  datatype Push = PushDone | RemoteChanged | PushUnsettled | PushRefused | PushOffline

  datatype Heads = Heads(source: Option<Sha>, target: Sha)

  /** What the pull request list shows for the source branch. */
  datatype Pulls = NoPull | WrongPull | OnePull(number: nat, text: Text)

  /** What a readback of an announced pull request write shows. */
  datatype WriteBack = Foreign | Absent | Seen(number: nat, completed: bool)

  datatype PrWrite = Written(number: nat) | WriteUnknown | WriteUnsettled | WriteRefused | WriteOffline

  datatype Merge = MergedAs(sha: Sha) | OutcomeUnknown | MergeUnsettled | MergeRefused | MergeOffline

  datatype Close = TicketNowClosed | ForeignClose | CloseUnsettled | CloseRefused | CloseOffline

  /** Where the routine consults its environment. */
  datatype Place =
    | AtStart | AtExisting | AtRequirements | AtSnapshot | AtDrift | AtVerify | AtPush | AtPublished
    | AtPrIntent | AtPrSaved | AtChecks | AtGate | AtArmed | AtEngine

  /** Every answer the environment gives during one activation. */
  datatype Answers = Answers(
    stop: Place -> bool, current: Place -> bool, heads: Place -> Read<Heads>,
    pendingWrite: Read<WriteBack>, pendingSaveFails: bool,
    existing: Read<Live>, verify: Op, push: Push,
    writeBack: Read<WriteBack>, pulls: Read<Pulls>, prWrite: PrWrite, prSaveFails: bool,
    created: Read<Live>,
    checks: Read<Observation>, contradictory: bool, identity: Read<Live>, failedIdentity: Read<Live>,
    evidence: Read<bool>, evidenceIdentity: Read<Live>, validates: bool, repairAllowed: bool,
    final: Read<Live>, acceptanceCurrent: bool,
    merge: Merge, sync: Op, merged: Read<Live>, closing: Read<Live>, revisionChanged: bool, close: Close)

  /**
   * How a part of the routine ends: go on, return True or False to the engine, leave a GitHub error
   * that the engine turns into a wait, or raise. `RolledBack` raises after undoing an unsaved change.
   */
  datatype Flow = Proceed | Waiting | Continue | Deferred | Raised | RolledBack

  class PublishedHeadStage {
    const contract: Contract
    const git: Git
    const start: Job
    var job: Job
    var history: seq<Event>

    constructor (contract: Contract, git: Git, start: Job)
      requires Untouched(start)
      ensures this.contract == contract && this.git == git && this.start == start
      ensures job == start && history == [] && Settled()
    {
      this.contract, this.git, this.start := contract, git, start;
      job, history := start, [];
    }

    ghost function Book(): Ledger
      reads this
    {
      Replay(start, history)
    }

    ghost predicate Lawful()
      reads this
    {
      Untouched(start) && Legal(contract, git, start, history) && LedgerInv(Book())
    }

    /** Between activations memory and the store agree. */
    ghost predicate Settled()
      reads this
    {
      Lawful() && job == Book().durable
    }

    /** The job in memory may be saved in any non-final phase. */
    ghost predicate Ready()
      reads this
    {
      && Lawful()
      && Book().durable.phase != Completed && job.phase != Completed
      && JobInv(job)
      && IntentAdvances(Book().durable.mergeIntent, job.mergeIntent)
      && job.publication.Some?
      && !Moves(Book().durable, job)
      && (job.integrated.Some? && job.integrated != Book().durable.integrated ==>
            && Armed(Book().durable) && Book().durable.phase == Merging
            && job.pr.Some? && (job.pr.value, job.integrated.value) in Book().results
            && !Early(job) && !WritePending(job))
    }

    /** Memory differs from the store only in facts that carry no write authority. */
    ghost predicate InStep()
      reads this
    {
      && Ready()
      && job.mergeIntent == Book().durable.mergeIntent
      && job.writeIntent == Book().durable.writeIntent
      && job.integrated == Book().durable.integrated
    }

    /** The routine is under way: nothing has parked the job yet. */
    ghost predicate Running()
      reads this
    {
      InStep() && job.resumePhase.None? && job.pausePhase.None?
    }

    /** The pull request, if there is one, looked open in this activation's newest read. */
    ghost predicate LookedOpen()
      reads this
    {
      job.pr.Some? ==>
        Book().seen.Some? && job.pr == Some(Book().seen.value.0) && LooksOpen(Book().seen.value.1)
    }

    method Append(e: Event)
      requires Lawful() && Admits(contract, git, Book(), e)
      modifies this`history
      ensures history == old(history) + [e]
      ensures Book() == Record(old(Book()), e)
      ensures Lawful()
    {
      Extend(contract, git, start, history, e);
      history := history + [e];
      LegalKeepsInvariant(contract, git, start, history);
    }

    /** Make the job in memory durable. */
    method Save()
      requires Ready()
      modifies this`history
      ensures history == old(history) + [Saved(job)]
      ensures Book() == Record(old(Book()), Saved(job))
      ensures Settled() && InStep()
    {
      Append(Saved(job));
    }

    method Block() returns (flow: Flow)
      requires Ready()
      modifies this`job, this`history
      ensures old(history) <= history
      ensures job == Blocking(old(job)) && Settled() && InStep() && history == old(history) + [Saved(job)]
      ensures flow == Continue
    {
      job := Blocking(job);
      Save();
      flow := Continue;
    }

    /** Stop requests are honoured only while no remote write is unsettled. */
    method PauseIfRequested(a: Answers, place: Place) returns (paused: bool)
      requires InStep()
      modifies this`job, this`history
      ensures old(history) <= history
      ensures paused == (CanPause(old(job)) && a.stop(place))
      ensures paused ==> job == Paused(old(job)) && Settled()
      ensures !paused ==> job == old(job) && history == old(history)
      ensures InStep()
    {
      paused := CanPause(job) && a.stop(place);
      if paused {
        job := Paused(job);
        Save();
      }
    }

    /** Count one failed Publisher operation; the fifth ends the activation, earlier ones are re-raised. */
    method OperationFailed() returns (flow: Flow)
      requires Ready() && job.pausePhase.None?
      modifies this`job, this`history
      ensures old(history) <= history && history in {old(history), old(history) + [Saved(job)]}
      ensures old(job.retries) < MAX_OPERATION_ATTEMPTS ==>
                job == CountFailure(old(job)) && Settled() && InStep()
                && flow == (if job.phase == PublicationPending && job.retries == MAX_OPERATION_ATTEMPTS then Waiting else Raised)
      ensures old(job.retries) >= MAX_OPERATION_ATTEMPTS ==> job == old(job) && history == old(history) && flow == Raised
      ensures Lawful() && job.phase != Completed
    {
      hide Legal;
      hide Replay;
      if job.retries >= MAX_OPERATION_ATTEMPTS { return Raised; }
      job := CountFailure(job);
      Save();
      flow := if job.phase == PublicationPending && job.retries == MAX_OPERATION_ATTEMPTS then Waiting else Raised;
    }

    method Operation(op: Op) returns (flow: Flow)
      requires Ready() && job.pausePhase.None?
      modifies this`job, this`history
      ensures old(history) <= history
      ensures op == Done ==> flow == Proceed && job == old(job) && history == old(history)
      ensures op != Done ==> flow in {Waiting, Deferred, Raised}
      ensures flow == Deferred ==> job == old(job) && history == old(history)
      ensures flow == Waiting ==> Settled() && InStep()
      ensures Lawful() && job.phase != Completed
    {
      match op {
        case Done => flow := Proceed;
        case OpUnsettled => flow := Deferred;
        case OpRefused => flow := Raised;
        case OpOffline => flow := OperationFailed();
      }
    }

    /** Requirements that changed under the job stop it. */
    method RejectStale(a: Answers, place: Place) returns (flow: Flow)
      requires InStep()
      modifies this`job, this`history
      ensures old(history) <= history
      ensures a.current(place) ==> flow == Proceed && job == old(job) && InStep() && Book() == old(Book()).(current := true)
      ensures !a.current(place) ==> flow == Waiting && job == Blocking(old(job)) && Settled()
      ensures Lawful()
    {
      Append(RequirementsRead(a.current(place)));
      if a.current(place) { return Proceed; }
      flow := Block();
      flow := Waiting;
    }

    method InvalidatePublication() returns (flow: Flow)
      requires Running() && LookedOpen()
      modifies this`job, this`history
      ensures old(history) <= history
      ensures job == Invalidated(old(job)) && Settled() && flow == Continue
    {
      job := Invalidated(job);
      Append(Saved(job));
      flow := Continue;
    }

    /** Compare the integrated snapshot with both live branch heads. */
    method Reconcile(a: Answers, place: Place) returns (flow: Flow)
      requires Running() && LookedOpen()
      modifies this`job, this`history
      ensures old(history) <= history
      ensures flow == Proceed <==> SnapshotCurrent(old(job), a.heads(place))
      ensures flow == Proceed || flow == Deferred ==> job == old(job) && history == old(history)
      ensures flow == Continue ==> Settled() && (job == Blocking(old(job)) || job == Invalidated(old(job)))
      ensures flow == Continue && IntegrationValid(git, old(job)) && a.heads(place).Got? && a.heads(place).value.source.Some? ==>
                job == Invalidated(old(job))
      ensures flow in {Proceed, Continue, Deferred, Raised} && job.phase != Completed
      ensures Lawful()
    {
      if !IntegrationValid(git, job) {
        flow := Block();
        return;
      }
      match a.heads(place) {
        case Unsettled => flow := Deferred;
        case Refused => flow := Raised;
        case Offline => flow := Raised;
        case Got(heads) =>
          if heads.source.None? {
            flow := Block();
            return;
          }
          var source := heads.source.value;
          if job.published.Some? && job.published == job.publication && Some(source) != job.publication {
            flow := InvalidatePublication();
            return;
          }
          var own := OwnSourceWrite(job, source) && Some(source) == job.publication;
          if (source == job.integration.value.source || own) && heads.target == job.integration.value.target {
            return Proceed;
          }
          flow := InvalidatePublication();
      }
    }

    /** The live heads are still the ones the integration record was made from. */
    predicate SnapshotCurrent(job: Job, heads: Read<Heads>) {
      && IntegrationValid(git, job)
      && heads.Got? && heads.value.source.Some?
      && var source := heads.value.source.value;
      && heads.value.target == job.integration.value.target
      && (job.published.Some? && job.published == job.publication ==> Some(source) == job.publication)
      && (source == job.integration.value.source
          || (Some(source) == job.publication && OwnSourceWrite(job, source)))
    }

    /** The live read shows this publication merged, unchanged, on top of its base. */
    predicate MergedAsPublished(job: Job, live: Live) {
      && live.state == MergedState
      && live.integrated == job.integrated
      && job.publication == Some(live.head)
      && live.baseBranch == contract.baseBranch
      && live.headTree == live.integratedTree
      && live.integratedMessage == job.message
      && live.integratedParents == [PublicationBase(job)]
    }

    /** Make the integrated boundary durable if the closing read shows this publication merged. */
    method AcceptMerged(live: Live, revisionChanged: bool) returns (flow: Flow)
      requires Ready() && job.pr.Some? && job.integrated.Some? && job.resumePhase.None? && job.pausePhase.None?
      modifies this`job, this`history
      ensures old(history) <= history
      ensures flow == Proceed ==> history == old(history) + [PrRead(old(job.pr).value, live), Saved(job)]
      ensures flow == Proceed <==> MergedAsPublished(old(job), live) && !revisionChanged && old(job.record).Some?
      ensures flow == Proceed ==> job == old(job).(phase := Merged, integratedPublication := old(job.publication))
      ensures flow != Proceed ==> flow == Waiting && job == old(job).(phase := Blocked)
      ensures Settled() && Running() && Book().seen == Some((job.pr.value, live))
    {
      hide Legal;
      hide Replay;
      hide LedgerInv;
      Append(PrRead(job.pr.value, live));
      if !MergedAsPublished(job, live) || revisionChanged || job.record.None? {
        job := job.(phase := Blocked);
        flow := Waiting;
      } else {
        job := job.(phase := Merged, integratedPublication := job.publication);
        flow := Proceed;
      }
      Save();
    }

    /** Read the merged result back and make the integrated boundary durable. */
    method ReadMergedResult(a: Answers) returns (flow: Flow)
      requires Ready() && job.pr.Some? && job.integrated.Some? && job.resumePhase.None? && job.pausePhase.None?
      modifies this`job, this`history
      ensures old(history) <= history
      ensures flow == Proceed && a.closing.Got? ==>
                history == old(history) + [PrRead(old(job.pr).value, a.closing.value), Saved(job)]
      ensures flow == Proceed <==>
                a.closing.Got? && MergedAsPublished(old(job), a.closing.value) && !a.revisionChanged && old(job.record).Some?
      ensures flow == Proceed ==>
                && job == old(job).(phase := Merged, integratedPublication := old(job.publication))
                && Settled() && Running() && Book().seen == Some((job.pr.value, a.closing.value))
      ensures flow != Proceed ==> flow in {Waiting, Deferred, Raised}
      ensures flow == Waiting ==> Settled()
      ensures flow == Deferred ==> Ready()
      ensures Lawful() && job.phase != Completed
    {
      hide Legal;
      hide Replay;
      hide LedgerInv;
      hide JobInv;
      hide IntentAdvances;
      match a.closing {
        case Unsettled => flow := Deferred;
        case Refused => flow := Raised;
        case Offline => flow := OperationFailed();
        case Got(live) => flow := AcceptMerged(live, a.revisionChanged);
      }
    }

    /** Close the ticket whose merge is already durable. */
    method CloseTicket(a: Answers) returns (flow: Flow)
      requires Settled() && Running() && job.phase == Merged
      modifies this`job, this`history
      ensures old(history) <= history
      ensures flow == Proceed ==> history == old(history) + [TicketClosed, Saved(job)]
      ensures flow == Proceed <==> a.close == TicketNowClosed
      ensures flow == Proceed ==>
                job == old(job) && Settled() && Running() && Book().closed && Book().seen == old(Book()).seen
      ensures flow != Proceed ==> flow in {Waiting, Raised}
      ensures flow == Waiting ==> Settled()
      ensures Lawful() && job.phase != Completed
    {
      hide Legal;
      hide Replay;
      hide LedgerInv;
      match a.close {
        case CloseUnsettled =>
          Save();
          flow := Waiting;
        case CloseRefused => flow := Raised;
        case CloseOffline => flow := OperationFailed();
        case ForeignClose =>
          job := job.(phase := Blocked);
          Save();
          flow := Waiting;
        case TicketNowClosed =>
          Append(TicketClosed);
          Save();
          flow := Proceed;
      }
    }

    /** The closing reads and the ticket closure all succeed for this publication. */
    predicate ClosesOut(job: Job, a: Answers) {
      a.closing.Got? && MergedAsPublished(job, a.closing.value) && !a.revisionChanged && a.close == TicketNowClosed
    }

    method AfterMerge(a: Answers) returns (flow: Flow)
      requires Ready() && job.pr.Some? && job.integrated.Some? && job.resumePhase.None? && job.pausePhase.None?
      modifies this`job, this`history
      ensures old(history) <= history
      ensures flow == Proceed && a.closing.Got? ==>
                history == old(history) + [PrRead(old(job.pr).value, a.closing.value), Saved(job), TicketClosed, Saved(job)]
      ensures flow == Proceed <==> ClosesOut(old(job), a) && old(job.record).Some?
      ensures flow == Proceed ==> job == old(job).(phase := Merged, integratedPublication := old(job.publication))
      ensures flow == Proceed ==> Settled() && Running() && CompletionGate(contract, Book(), job)
      ensures flow != Proceed ==> flow in {Waiting, Deferred, Raised}
      ensures flow == Waiting ==> Settled()
      ensures flow == Deferred ==> Ready()
      ensures Lawful() && job.phase != Completed
    {
      hide Legal;
      hide Replay;
      hide LedgerInv;
      hide JobInv;
      hide IntentAdvances;
      flow := ReadMergedResult(a);
      if flow != Proceed { return; }
      flow := CloseTicket(a);
    }

    method Complete() returns (flow: Flow)
      requires Settled() && Running() && CompletionGate(contract, Book(), job)
      modifies this`job, this`history
      ensures history == old(history) + [Saved(job)]
      ensures job == old(job).(phase := Completed) && Settled() && flow == Waiting
    {
      job := job.(phase := Completed);
      Append(Saved(job));
      flow := Waiting;
    }

    /** A pull request that is already merged completes the job only on evidence of its own merge. */
    method AdoptMerge(live: Live, a: Answers) returns (flow: Flow)
      requires Settled() && Running() && job.pr.Some? && !Early(job) && !WritePending(job)
      requires live.integrated.Some? ==> (job.pr.value, live.integrated.value) in Book().results
      modifies this`job, this`history
      ensures old(history) <= history
      ensures flow in {Waiting, Continue, Deferred, Raised}
      ensures !MergedIdentityMatches(contract, old(job), live) || (old(job.phase) != Merging && old(job.integrated) != live.integrated) ==>
                flow == Continue && job == Blocking(old(job))
      ensures job.phase == Completed <==>
                && MergedIdentityMatches(contract, old(job), live)
                && (old(job.phase) == Merging || old(job.integrated) == live.integrated)
                && live.integrated.Some? && a.sync == Done
                && ClosesOut(old(job).(integrated := live.integrated), a) && old(job.record).Some?
      ensures flow in {Waiting, Continue} ==> Settled()
      ensures flow == Deferred ==> Ready()
      ensures Lawful()
    {
      hide Legal;
      hide Replay;
      hide LedgerInv;
      if !MergedIdentityMatches(contract, job, live) {
        flow := Block();
        return;
      }
      if job.phase != Merging && job.integrated != live.integrated {
        flow := Block();
        return;
      }
      if live.integrated.None? { return Raised; }
      job := job.(integrated := live.integrated, integratedPublication := Some(live.head));
      flow := Operation(a.sync);
      if flow != Proceed { return; }
      flow := AfterMerge(a);
      if flow != Proceed { return; }
      flow := Complete();
    }

    // ---- Before the push ----

    function PushIntent(job: Job): WriteIntent
      requires job.publication.Some?
    {
      PublishRef(contract.branch, PublicationSource(job), job.publication.value)
    }

    /** The remote already shows this publication, and the job is the one that put it there. */
    predicate AlreadyPublished(job: Job, remote: Sha)
      requires job.publication.Some?
    {
      job.publication == Some(remote) && (job.published == job.publication || job.writeIntent == Some(PushIntent(job)))
    }

    /** The pull request still sits between the recorded source and this publication. */
    predicate PrAtBoundary(job: Job, live: Live) {
      && (live.head == PublicationSource(job) || job.publication == Some(live.head))
      && live.baseSha == PublicationBase(job)
      && live.baseBranch == contract.baseBranch
    }

    /** Settle what the existing pull request already shows. */
    method ObserveExisting(a: Answers) returns (flow: Flow, published: bool)
      requires Settled() && Running() && job.pr.Some? && !Early(job) && !WritePending(job)
      modifies this`job, this`history
      ensures old(history) <= history
      ensures flow == Proceed <==>
                && a.existing.Got? && a.existing.value.state in {Unstated, Open}
                && !(old(job.phase) in {Merging, WaitingMerge} && a.stop(AtExisting))
                && !(old(job.phase) == Merging && old(job.integrated).Some?)
                && SnapshotCurrent(old(job), a.heads(AtExisting)) && PrAtBoundary(old(job), a.existing.value)
      ensures flow == Proceed ==>
                && job == old(job) && Settled() && Running()
                && a.existing.Got? && a.existing.value.state in {Unstated, Open}
                && PrAtBoundary(job, a.existing.value)
                && SnapshotCurrent(job, a.heads(AtExisting))
                && published == AlreadyPublished(job, a.existing.value.head)
                && !(job.phase == Merging && job.integrated.Some?)
                && LookedOpen() && Book().current == old(Book().current)
      ensures flow in {Proceed, Waiting, Continue, Deferred, Raised}
      ensures flow in {Waiting, Continue} ==> Settled()
      ensures flow == Deferred ==> Ready()
      ensures job.phase == Completed ==>
                && a.existing.Got? && a.existing.value.state == MergedState
                && MergedIdentityMatches(contract, old(job), a.existing.value)
                && (old(job.phase) == Merging || old(job.integrated) == a.existing.value.integrated)
      ensures Lawful()
    {
      hide Legal;
      hide Replay;
      hide LedgerInv;
      published := false;
      match a.existing {
        case Refused => flow := Raised;
        case Unsettled =>
          Save();
          flow := Waiting;
        case Offline =>
          Save();
          flow := Waiting;
        case Got(live) =>
          Append(PrRead(job.pr.value, live));
          if live.state == MergedState {
            flow := AdoptMerge(live, a);
            return;
          }
          if live.state == Closed {
            flow := Block();
            return;
          }
          if (a.stop(AtExisting) && job.phase in {Merging, WaitingMerge}) || (job.phase == Merging && job.integrated.Some?) {
            Save();
            return Waiting, false;
          }
          flow := Reconcile(a, AtExisting);
          if flow != Proceed { return; }
          if !PrAtBoundary(job, live) {
            flow := Block();
            return;
          }
          published := AlreadyPublished(job, live.head);
      }
    }

    /** Without a pull request, the exact live refs tell whether the push already happened. */
    method ObserveRefs(a: Answers) returns (flow: Flow, published: bool)
      requires Settled() && Running() && job.pr.None?
      modifies this`job, this`history
      ensures old(history) <= history
      ensures flow == Proceed ==> job == old(job) && history == old(history)
      ensures flow == Proceed ==>
                && SnapshotCurrent(job, a.heads(AtSnapshot)) && a.heads(AtRequirements).Got?
                && published == (a.heads(AtRequirements).value.source.Some?
                                 && AlreadyPublished(job, a.heads(AtRequirements).value.source.value))
      ensures SnapshotCurrent(old(job), a.heads(AtSnapshot)) && a.heads(AtRequirements).Got?
              && a.heads(AtRequirements).value.target == PublicationBase(old(job))
              && a.heads(AtRequirements).value.source in {Some(PublicationSource(old(job))), old(job.publication)} ==>
                flow == Proceed
      ensures flow in {Proceed, Continue, Deferred, Raised}
      ensures flow == Continue ==> Settled() && job.phase != Completed
      ensures flow == Deferred ==> Ready()
      ensures Lawful()
    {
      published := false;
      flow := Reconcile(a, AtSnapshot);
      if flow != Proceed { return; }
      match a.heads(AtRequirements) {
        case Unsettled => flow := Deferred;
        case Refused => flow := Raised;
        case Offline => flow := Raised;
        case Got(heads) =>
          if heads.target != PublicationBase(job)
             || (heads.source != Some(PublicationSource(job)) && heads.source != job.publication) {
            flow := Reconcile(a, AtDrift);
            if flow != Proceed { return; }
          }
          published := heads.source.Some? && AlreadyPublished(job, heads.source.value);
      }
    }

    /** The pull request, if any, must still be open at the expected head before a push. */
    method VerifyBeforePush(a: Answers) returns (flow: Flow)
      requires Settled() && Running() && LookedOpen()
      modifies this`job, this`history
      ensures old(history) <= history
      ensures flow == Proceed ==> job == old(job) && history == old(history)
      ensures flow == Proceed <==> a.verify == Done
      ensures flow in {Proceed, Waiting, Continue, Deferred, Raised}
      ensures flow in {Waiting, Continue} ==> Settled() && job.phase != Completed
      ensures flow == Deferred ==> Ready()
      ensures Lawful()
    {
      match a.verify {
        case Done => flow := Proceed;
        case OpOffline => flow := OperationFailed();
        case OpUnsettled =>
          flow := Reconcile(a, AtVerify);
          if flow == Proceed { flow := Deferred; }
        case OpRefused =>
          flow := Reconcile(a, AtVerify);
          if flow == Proceed { flow := Raised; }
      }
    }

    // ---- The push ----

    /** Nobody asks the job to stop, and its requirements stay current. */
    ghost predicate Quiet(a: Answers) {
      forall p :: !a.stop(p) && a.current(p)
    }

    /** Save the intent of the push, unless the same push was already announced. */
    method AnnouncePush(a: Answers) returns (flow: Flow)
      requires Settled() && Running() && LookedOpen()
      modifies this`job, this`history
      ensures old(history) <= history
      ensures flow == Proceed ==> LookedOpen()
      ensures Quiet(a) ==> flow == Proceed
      ensures flow == Proceed ==>
                && Settled() && Running()
                && job == old(job).(writeIntent := Some(PushIntent(old(job))))
      ensures flow != Proceed ==> flow == Waiting && Settled() && job == Paused(old(job))
      ensures Lawful()
    {
      if job.writeIntent != Some(PushIntent(job)) {
        var paused := PauseIfRequested(a, AtPush);
        if paused { return Waiting; }
        job := job.(writeIntent := Some(PushIntent(job)));
        Save();
      }
      flow := Proceed;
    }

    method Push(a: Answers) returns (flow: Flow)
      requires Settled() && Running() && LookedOpen() && job.writeIntent == Some(PushIntent(job))
      modifies this`job, this`history
      ensures old(history) <= history
      ensures flow == Proceed ==> LookedOpen()
      ensures old(history) + [Pushed(contract.branch, PublicationSource(old(job)), old(job.publication).value)] <= history
      ensures flow == Proceed <==> a.push == PushDone
      ensures flow == Proceed ==> job == old(job) && Settled() && Running()
      ensures flow in {Proceed, Waiting, Continue, Deferred, Raised}
      ensures flow in {Waiting, Continue} ==> Settled()
      ensures flow == Deferred ==> Ready()
      ensures Lawful() && job.phase != Completed
    {
      hide Legal;
      hide Replay;
      hide LedgerInv;
      Append(Pushed(contract.branch, PublicationSource(job), job.publication.value));
      match a.push {
        case PushDone => flow := Proceed;
        case PushUnsettled => flow := Deferred;
        case PushRefused => flow := Raised;
        case PushOffline => flow := OperationFailed();
        case RemoteChanged =>
          flow := Reconcile(a, AtPush);
          if flow == Proceed { flow := Block(); }
      }
    }

    /** The readback settles the push only: an announced pull request write keeps its intent. */
    method AcknowledgePush(a: Answers) returns (flow: Flow)
      requires Settled() && Running() && LookedOpen()
      modifies this`job, this`history
      ensures old(history) <= history
      ensures flow == Proceed ==> LookedOpen()
      ensures Quiet(a) ==> flow == Proceed
      ensures flow == Proceed ==>
                && Settled() && Running()
                && job == old(job).(published := old(job.publication),
                                    writeIntent := if old(job.writeIntent) == Some(PushIntent(old(job))) then None
                                                   else old(job.writeIntent))
      ensures flow != Proceed ==> flow == Waiting && Settled()
      ensures Lawful() && job.phase != Completed
    {
      hide Legal;
      hide Replay;
      hide LedgerInv;
      job := job.(published := job.publication,
                  writeIntent := if job.writeIntent == Some(PushIntent(job)) then None else job.writeIntent);
      Save();
      var paused := PauseIfRequested(a, AtPublished);
      if paused { return Waiting; }
      flow := RejectStale(a, AtPublished);
    }

    method Publish(a: Answers, published: bool) returns (flow: Flow)
      requires Settled() && Running() && LookedOpen()
      modifies this`job, this`history
      ensures old(history) <= history
      ensures flow == Proceed ==> LookedOpen()
      ensures flow == Proceed ==>
                && Settled() && Running()
                && job.published == job.publication
                && job == old(job).(published := old(job.publication), writeIntent := job.writeIntent)
      ensures flow == Proceed && old(job.writeIntent).None? ==> job.writeIntent.None?
      ensures Quiet(a) && a.push == PushDone ==> flow == Proceed
      ensures flow == Proceed && !published ==> a.push == PushDone
      ensures flow in {Proceed, Waiting, Continue, Deferred, Raised}
      ensures flow in {Waiting, Continue} ==> Settled()
      ensures flow == Deferred ==> Ready()
      ensures Lawful() && job.phase != Completed
    {
      hide Legal;
      hide Replay;
      hide LedgerInv;
      hide JobInv;
      hide IntentAdvances;
      if !published {
        flow := AnnouncePush(a);
        if flow != Proceed { return; }
        flow := Push(a);
        if flow != Proceed { return; }
      }
      flow := AcknowledgePush(a);
    }

    // ---- The pull request ----

    function PrIntent(job: Job): WriteIntent
      requires job.publication.Some?
    {
      EnsurePr(contract.branch, contract.baseBranch, PublicationBase(job), job.publication.value, None)
    }

    /** The saved intent announces exactly this pull request; its narrative snapshot is kept. */
    predicate PrAnnounced(job: Job) {
      && job.publication.Some? && job.writeIntent.Some? && job.writeIntent.value.EnsurePr?
      && job.writeIntent.value.(narrative := None) == PrIntent(job)
    }

    method AnnouncePr(a: Answers) returns (flow: Flow)
      requires Settled() && Running() && LookedOpen()
      modifies this`job, this`history
      ensures old(history) <= history
      ensures flow == Proceed ==> LookedOpen()
      ensures flow == Proceed <==> PrAnnounced(old(job)) || !(CanPause(old(job)) && a.stop(AtPrIntent))
      ensures flow == Proceed ==>
                && Settled() && Running() && PrAnnounced(job)
                && (if PrAnnounced(old(job)) then job == old(job)
                    else job == old(job).(writeIntent := Some(PrIntent(old(job)))))
      ensures flow != Proceed ==> flow == Waiting && Settled() && job == Paused(old(job))
      ensures Lawful()
    {
      if !PrAnnounced(job) {
        var paused := PauseIfRequested(a, AtPrIntent);
        if paused { return Waiting; }
        job := job.(writeIntent := Some(PrIntent(job)));
        Save();
      }
      flow := Proceed;
    }

    /** The readback of an announced write, judged against its saved narrative snapshot. */
    function Judged(n: Narrative, b: WriteBack): WriteBack {
      match b
      case Foreign => Foreign
      case Absent => if n.number.Some? || n.prior.Some? then Foreign else Absent
      case Seen(number, completed) => Seen(if n.number.Some? then n.number.value else number, completed)
    }

    /** The snapshot that decides about a write: the saved one, or the one made now. */
    function SnapshotOf(job: Job, number: Option<nat>, prior: Option<Text>): Narrative {
      if job.writeIntent.Some? && job.writeIntent.value.EnsurePr? && job.writeIntent.value.narrative.Some?
      then job.writeIntent.value.narrative.value
      else Narrative(number, prior, job.narrative)
    }

    /** The pull request on GitHub is the one the snapshot knows, before or after its write. */
    predicate Recognized(n: Narrative, target: Text, number: Option<nat>, prior: Option<Text>) {
      n.target == target && (n.number.Some? ==> n.number == number) && (prior == Some(n.target) || prior == n.prior)
    }

    /** Save the narrative snapshot once, then allow at most the one write it names. */
    method AdmitWrite(number: Option<nat>, prior: Option<Text>) returns (known: bool, write: bool)
      requires Settled() && Running() && PrAnnounced(job) && LookedOpen()
      modifies this`job, this`history
      ensures old(history) <= history
      ensures Settled() && Running() && PrAnnounced(job) && LookedOpen()
      ensures old(job.writeIntent.value.narrative).Some? ==> job == old(job)
      ensures old(job.writeIntent.value.narrative).None? ==>
                job == old(job).(writeIntent := Some(old(job.writeIntent.value).(
                         narrative := Some(Narrative(number, prior, old(job.narrative))))))
      ensures var n := SnapshotOf(old(job), number, prior);
              && job.writeIntent.value.narrative == Some(n)
              && known == Recognized(n, job.narrative, number, prior)
              && write == (known && prior != Some(n.target))
      ensures history == old(history) + (if old(job.writeIntent.value.narrative).None? then [Saved(job)] else [])
    {
      if job.writeIntent.value.narrative.None? {
        job := job.(writeIntent := Some(job.writeIntent.value.(narrative := Some(Narrative(number, prior, job.narrative)))));
        Append(Saved(job));
      } else {
        assert history + [] == history;
      }
      var n := job.writeIntent.value.narrative.value;
      known := Recognized(n, job.narrative, number, prior);
      write := known && prior != Some(n.target);
    }

    /** What an earlier activation's write already achieved, if it was ever admitted. */
    method RecoverPr(a: Answers) returns (flow: Flow, found: Option<nat>)
      requires Settled() && Running() && LookedOpen() && PrAnnounced(job)
      modifies this`job, this`history
      ensures old(history) <= history
      ensures flow == Proceed ==> LookedOpen()
      ensures flow == Proceed ==> job == old(job) && history == old(history)
      ensures flow == Proceed && found.Some? ==>
                var n := job.writeIntent.value.narrative;
                n.Some? && n.value.target == job.narrative && a.writeBack.Got?
                && Judged(n.value, a.writeBack.value) == Seen(found.value, true)
      ensures old(job.writeIntent.value.narrative).None? ==> flow == Proceed && found.None?
      ensures flow in {Proceed, Waiting, Continue, Deferred, Raised}
      ensures flow in {Waiting, Continue} ==> Settled() && job.phase != Completed
      ensures flow == Deferred ==> Ready()
      ensures Lawful()
    {
      found := None;
      var intent := job.writeIntent.value;
      if intent.narrative.None? { return Proceed, None; }
      match a.writeBack {
        case Unsettled => flow := Deferred;
        case Refused => flow := Raised;
        case Offline => flow := OperationFailed();
        case Got(back) =>
          match Judged(intent.narrative.value, back) {
            case Foreign => flow := Block();
            case Absent => flow := Proceed;
            case Seen(number, completed) =>
              if !completed { return Proceed, None; }
              if intent.narrative.value.target != job.narrative {
                flow := Block();
                return;
              }
              return Proceed, Some(number);
          }
      }
    }

    /** One pass of the Publisher over the pull request: read back, admit, write, confirm. */
    method WritePr(a: Answers) returns (flow: Flow, number: nat)
      requires Settled() && Running() && PrAnnounced(job) && LookedOpen()
      modifies this`job, this`history
      ensures old(history) <= history
      ensures flow == Proceed ==> Settled() && Running() && job == old(job).(writeIntent := job.writeIntent)
      ensures flow == Proceed ==> LookedOpen() && Book().found == Some(number)
      ensures flow == Proceed ==>
                && PrAnnounced(job) && job.writeIntent.value.narrative.Some?
                && job.writeIntent.value.narrative.value.target == job.narrative
      ensures old(job.writeIntent.value.narrative).None? && a.pulls == Got(NoPull) && a.prWrite.Written? ==>
                flow == Proceed && number == a.prWrite.number
      ensures flow in {Proceed, Waiting, Continue, Deferred, Raised}
      ensures flow in {Waiting, Continue} ==> Settled() && job.phase != Completed
      ensures flow == Deferred ==> Ready()
      ensures Lawful()
    {
      hide Legal;
      hide Replay;
      hide LedgerInv;
      hide JobInv;
      hide IntentAdvances;
      number := 0;
      var found;
      flow, found := RecoverPr(a);
      if flow != Proceed { return; }
      if found.Some? {
        Append(PrFound(found.value));
        return Proceed, found.value;
      }
      match a.pulls {
        case Unsettled => flow := Deferred;
        case Refused => flow := Raised;
        case Offline => flow := OperationFailed();
        case Got(pulls) =>
          if pulls.WrongPull? { return Raised, 0; }
          flow, number := AdmitAndWrite(a,
            if pulls.OnePull? then Some(pulls.number) else None,
            if pulls.OnePull? then Some(pulls.text) else None);
      }
    }

    /** Read a write back: only the open original pull request with its target text settles it. */
    method ConfirmWrite(a: Answers) returns (flow: Flow, number: nat)
      requires Settled() && Running() && PrAnnounced(job) && job.writeIntent.value.narrative.Some? && LookedOpen()
      modifies this`job, this`history
      ensures old(history) <= history
      ensures forall k :: |old(history)| <= k < |history| ==> history[k].Saved? || history[k].PrFound?
      ensures flow == Proceed <==> a.prWrite.Written?
      ensures flow == Proceed ==>
                && Settled() && Running() && job == old(job) && LookedOpen() && Book().found == Some(number)
                && number == (if job.writeIntent.value.narrative.value.number.Some?
                              then job.writeIntent.value.narrative.value.number.value else a.prWrite.number)
      ensures flow in {Proceed, Waiting, Continue, Deferred, Raised}
      ensures flow in {Waiting, Continue} ==> Settled() && job.phase != Completed
      ensures flow == Deferred ==> Ready()
      ensures Lawful()
    {
      hide Legal;
      hide Replay;
      hide LedgerInv;
      number := 0;
      var saved := job.writeIntent.value.narrative.value.number;
      match a.prWrite {
        case Written(n) =>
          flow := Proceed;
          number := if saved.Some? then saved.value else n;
          Append(PrFound(number));
        case WriteUnknown => flow := Block();
        case WriteUnsettled => flow := Deferred;
        case WriteRefused => flow := Raised;
        case WriteOffline => flow := OperationFailed();
      }
    }

    method AdmitAndWrite(a: Answers, seen: Option<nat>, prior: Option<Text>) returns (flow: Flow, number: nat)
      requires Settled() && Running() && PrAnnounced(job) && LookedOpen()
      modifies this`job, this`history
      ensures old(history) <= history
      ensures var n := SnapshotOf(old(job), seen, prior);
              var at := |old(history)| + if old(job.writeIntent).value.narrative.None? then 1 else 0;
              if Recognized(n, old(job.narrative), seen, prior) && prior != Some(n.target) then
                && |history| > at
                && history[at] == PrWritten(contract.branch, contract.baseBranch, PublicationBase(old(job)),
                                            old(job.publication).value, old(job.narrative))
              else forall k :: |old(history)| <= k < |history| ==> history[k].Saved? || history[k].PrFound?
      ensures flow == Proceed ==> Settled() && Running() && job == old(job).(writeIntent := job.writeIntent)
      ensures flow == Proceed ==> LookedOpen() && Book().found == Some(number)
      ensures flow == Proceed ==>
                && PrAnnounced(job) && job.writeIntent.value.narrative.Some?
                && job.writeIntent.value.narrative.value.target == job.narrative
                && a.prWrite.Written?
      ensures old(job.writeIntent.value.narrative).None? && a.prWrite.Written? ==>
                flow == Proceed && number == (if seen.Some? then seen.value else a.prWrite.number)
      ensures flow in {Proceed, Waiting, Continue, Deferred, Raised}
      ensures flow in {Waiting, Continue} ==> Settled() && job.phase != Completed
      ensures flow == Deferred ==> Ready()
      ensures Lawful()
    {
      hide PublicationBase;
      hide JobInv;
      hide IntentAdvances;
      hide Legal;
      hide Replay;
      hide LedgerInv;
      number := 0;
      var known, write := AdmitWrite(seen, prior);
      if !known {
        flow := Block();
        return;
      }
      var w := job.writeIntent.value;
      if write {
        Append(PrWritten(contract.branch, contract.baseBranch, w.baseSha, w.head, job.narrative));
      }
      flow, number := ConfirmWrite(a);
    }

    /** The job once its pull request is known. */
    function WithPr(job: Job, number: nat): Job {
      BindReceipts(job.(writeIntent := None, pr := Some(number)), number)
    }

    /** Record the pull request; a failed save puts the announced write back. */
    method SettlePr(a: Answers, number: nat) returns (flow: Flow)
      requires Settled() && Running() && LookedOpen() && Book().found == Some(number) && !Early(job)
      modifies this`job, this`history
      ensures old(history) <= history
      ensures a.prSaveFails ==> flow == RolledBack && job == old(job) && history == old(history)
      ensures flow == Proceed <==> !a.prSaveFails && !(CanPause(WithPr(old(job), number)) && a.stop(AtPrSaved)) && a.current(AtPrSaved)
      ensures flow == Proceed ==> Settled() && Running() && job == WithPr(old(job), number)
      ensures flow in {Proceed, Waiting, RolledBack}
      ensures Settled() && job.phase != Completed
    {
      hide Legal;
      hide Replay;
      hide LedgerInv;
      var before := job;
      job := WithPr(job, number);
      if a.prSaveFails {
        job := before;
        return RolledBack;
      }
      Append(Saved(job));
      var paused := PauseIfRequested(a, AtPrSaved);
      if paused { return Waiting; }
      flow := RejectStale(a, AtPrSaved);
    }

    method EnsurePullRequest(a: Answers) returns (flow: Flow)
      requires Settled() && Running() && LookedOpen() && !Early(job)
      modifies this`job, this`history
      ensures old(history) <= history
      ensures flow == Proceed ==>
                && Settled() && Running() && job.pr.Some?
                && job == WithPr(old(job), job.pr.value)
      ensures old(job.writeIntent).None? && (forall p :: !a.stop(p)) && a.current(AtPrSaved)
              && a.pulls == Got(NoPull) && a.prWrite.Written? && !a.prSaveFails ==>
                flow == Proceed && job.pr == Some(a.prWrite.number)
      ensures flow in {Waiting, Continue, RolledBack} ==> Settled() && job.phase != Completed
      ensures flow == Deferred ==> Ready()
      ensures Lawful()
    {
      hide Recognized;
      hide SnapshotOf;
      hide PublicationBase;
      hide Legal;
      hide Replay;
      hide LedgerInv;
      hide JobInv;
      hide IntentAdvances;
      flow := AnnouncePr(a);
      if flow != Proceed { return; }
      var number;
      flow, number := WritePr(a);
      if flow != Proceed { return; }
      flow := SettlePr(a, number);
    }

    /** The pull request just ensured must be open. */
    method ReadCreated(a: Answers) returns (flow: Flow)
      requires Settled() && Running() && job.pr.Some?
      modifies this`job, this`history
      ensures old(history) <= history
      ensures flow == Proceed <==> a.created.Got? && a.created.value.state in {Unstated, Open}
      ensures flow == Proceed ==> job == old(job) && Settled() && Running()
      ensures a.created.Got? && flow != Proceed ==> flow == Continue && job == Blocking(old(job))
      ensures flow in {Proceed, Waiting, Continue, Deferred, Raised}
      ensures flow in {Waiting, Continue} ==> Settled() && job.phase != Completed
      ensures flow == Deferred ==> Ready()
      ensures Lawful()
    {
      hide Legal;
      hide Replay;
      match a.created {
        case Unsettled => flow := Deferred;
        case Refused => flow := Raised;
        case Offline => flow := OperationFailed();
        case Got(live) =>
          Append(PrRead(job.pr.value, live));
          if live.state !in {Unstated, Open} {
            flow := Block();
          } else {
            flow := Proceed;
          }
      }
    }

    // ---- Required Checks ----

    /** A read that has not converged is a wait; the job stays as it is. */
    method WaitForGitHub() returns (flow: Flow)
      requires Ready()
      modifies this`history
      ensures old(history) <= history
      ensures flow == Waiting && Settled() && InStep() && history == old(history) + [Saved(job)]
    {
      Save();
      flow := Waiting;
    }

    /** Compare the complete live identity of the pull request with the publication. */
    method VerifyIdentity(read: Read<Live>) returns (flow: Flow)
      requires Running() && job.pr.Some?
      modifies this`job, this`history
      ensures old(history) <= history
      ensures flow == Proceed <==> read.Got? && LiveIdentityMatches(contract, old(job), read.value)
      ensures flow == Proceed ==>
                && job == old(job) && Running() && Book().durable == old(Book().durable)
                && Book().seen == Some((job.pr.value, read.value))
      ensures job == old(job) || job == Blocking(old(job))
      ensures read.Got? && flow != Proceed ==> flow == Continue && job == Blocking(old(job))
      ensures flow in {Proceed, Waiting, Continue, Raised}
      ensures flow in {Waiting, Continue} ==> Settled() && job.phase != Completed
      ensures Lawful()
    {
      hide Legal;
      hide Replay;
      hide LedgerInv;
      match read {
        case Unsettled => flow := WaitForGitHub();
        case Refused => flow := Raised;
        case Offline => flow := WaitForGitHub();
        case Got(live) =>
          Append(PrRead(job.pr.value, live));
          if LiveIdentityMatches(contract, job, live) {
            flow := Proceed;
          } else {
            flow := Block();
          }
      }
    }

    /** An observation speaks about exactly this pull request and this head. */
    predicate Names(o: Observation, job: Job) {
      job.pr == Some(o.pr) && job.publication == Some(o.head)
    }

    /** One exact-head observation, bracketed by the live identity of the pull request. */
    method ReadChecks(a: Answers) returns (flow: Flow)
      requires Settled() && Running() && job.pr.Some?
      modifies this`job, this`history
      ensures old(history) <= history
      ensures flow == Proceed <==>
                && a.checks.Got? && !a.contradictory && Names(a.checks.value, old(job))
                && a.identity.Got? && LiveIdentityMatches(contract, old(job), a.identity.value)
                && a.current(AtChecks)
      ensures flow == Proceed ==>
                job == old(job).(retries := 0, checks := Some(a.checks.value)) && Running() && Book().current
      ensures flow in {Proceed, Waiting, Continue, Raised}
      ensures flow in {Waiting, Continue} ==> Settled() && job.phase != Completed
      ensures Lawful()
    {
      hide Legal;
      hide Replay;
      hide LedgerInv;
      job := job.(retries := 0);
      match a.checks {
        case Unsettled => flow := WaitForGitHub();
        case Refused => flow := Raised;
        case Offline => flow := WaitForGitHub();
        case Got(o) =>
          if a.contradictory || !Names(o, job) {
            flow := Block();
            return;
          }
          flow := VerifyIdentity(a.identity);
          if flow != Proceed { return; }
          flow := RejectStale(a, AtChecks);
          if flow != Proceed { return; }
          job := job.(checks := Some(o));
      }
    }

    /** Validate and persist the observation together with its receipt. */
    method CommitChecks(a: Answers, phase: Phase) returns (flow: Flow)
      requires Running() && job.pr.Some? && phase in {job.phase, WaitingChecks}
      modifies this`job, this`history
      ensures old(history) <= history
      ensures flow == if a.validates then Proceed else Raised
      ensures job == BindReceipts(old(job).(phase := phase), old(job.pr.value))
      ensures flow == Proceed ==> Settled() && Running() && Book().current == old(Book().current)
      ensures Lawful()
    {
      hide Legal;
      hide Replay;
      hide LedgerInv;
      job := BindReceipts(job.(phase := phase), job.pr.value);
      if !a.validates { return Raised; }
      Save();
      flow := Proceed;
    }

    /** Hand an exact-head failure to the CI repair, once its evidence is known to be about this head. */
    method RouteFailure(a: Answers) returns (flow: Flow)
      requires Settled() && Running() && job.pr.Some?
      modifies this`job, this`history
      ensures old(history) <= history
      ensures job.phase in {Repairing, Escalating} && old(job.phase) !in {Repairing, Escalating} ==>
                && a.failedIdentity.Got? && LiveIdentityMatches(contract, old(job), a.failedIdentity.value)
                && a.evidence == Got(true)
                && a.evidenceIdentity.Got? && LiveIdentityMatches(contract, old(job), a.evidenceIdentity.value)
                && job == ClearChecks(old(job).(phase := if a.repairAllowed then Repairing else Escalating))
      ensures flow in {Waiting, Continue, Raised}
      ensures flow in {Waiting, Continue} ==> Settled() && job.phase != Completed
      ensures Lawful()
    {
      hide Legal;
      hide Replay;
      hide LedgerInv;
      flow := VerifyIdentity(a.failedIdentity);
      if flow != Proceed { return; }
      match a.evidence {
        case Unsettled => flow := WaitForGitHub();
        case Refused => flow := Raised;
        case Offline => flow := WaitForGitHub();
        case Got(matches) =>
          flow := VerifyIdentity(a.evidenceIdentity);
          if flow != Proceed { return; }
          if !matches {
            flow := WaitForGitHub();
            return;
          }
          job := ClearChecks(job.(phase := if a.repairAllowed then Repairing else Escalating));
          Append(Saved(job));
          flow := Continue;
      }
    }

    /** Only an observation that is complete and not failed lets the publication go on. */
    method ObserveChecks(a: Answers) returns (flow: Flow)
      requires Settled() && Running() && job.pr.Some?
      modifies this`job, this`history
      ensures old(history) <= history
      ensures flow == Proceed <==> ChecksPass(old(job), a)
      ensures flow == Proceed ==>
                && Settled() && Running() && Book().current
                && job.pr == old(job.pr) && job.writeIntent == old(job.writeIntent)
                && job == Checked(old(job), a.checks.value)
      ensures flow in {Proceed, Waiting, Continue, Raised}
      ensures flow in {Waiting, Continue} ==> Settled() && job.phase != Completed
      ensures Lawful()
    {
      hide Legal;
      hide Replay;
      hide LedgerInv;
      hide JobInv;
      hide IntentAdvances;
      flow := ReadChecks(a);
      if flow != Proceed { return; }
      var o := a.checks.value;
      if o.result in {Pending, Unknown} || (o.result == Fail && o.hasPendingBucket) {
        flow := CommitChecks(a, WaitingChecks);
        if flow == Proceed { flow := Waiting; }
      } else if o.result == Fail {
        flow := CommitChecks(a, WaitingChecks);
        if flow != Proceed { return; }
        flow := RouteFailure(a);
      } else {
        flow := CommitChecks(a, job.phase);
      }
    }

    // ---- The gate and the merge ----

    /** One live read on which the merge of the current publication may rest. */
    predicate GateOpen(job: Job, live: Live, acceptanceCurrent: bool) {
      && job.publication == Some(live.head)
      && live.baseBranch == contract.baseBranch
      && live.baseSha == PublicationBase(job)
      && live.mergeable
      && AuthorityNamesCandidate(git, job)
      && (job.authority in {ByFallback, ByCiRepair} || acceptanceCurrent)
      && IntegrationValid(git, job)
      && git.tree(PublicationCandidate(job)) == git.tree(live.head)
    }

    /** The checks allow a merge, and the final read is one on which it may rest. */
    predicate FinalReadPasses(job: Job, a: Answers) {
      && job.pr.Some? && job.publication.Some?
      && ChecksAllow(job, job.pr.value, job.publication.value)
      && a.final.Got? && GateOpen(job, a.final.value, a.acceptanceCurrent)
    }

    /** Both live heads are still current as well, and nobody stops the job. */
    predicate GatePasses(job: Job, a: Answers) {
      && FinalReadPasses(job, a)
      && SnapshotCurrent(job, a.heads(AtGate))
      && !(CanPause(BindReceipts(job, job.pr.value)) && a.stop(AtGate))
    }

    /** The final read of the pull request, made only for checks that allow a merge. */
    method ReadFinal(a: Answers) returns (flow: Flow)
      requires Settled() && Running() && job.pr.Some?
      modifies this`job, this`history
      ensures old(history) <= history
      ensures flow == Proceed && a.final.Got? ==>
                history == old(history) + [PrRead(old(job.pr).value, a.final.value)]
      ensures flow == Proceed <==> FinalReadPasses(old(job), a)
      ensures flow == Proceed ==>
                && a.final.value.mergeable
                && Running() && job == old(job) && Book().durable == old(Book().durable)
                && Book().seen == Some((job.pr.value, a.final.value))
                && Book().current == old(Book().current)
      ensures flow in {Proceed, Waiting, Continue, Deferred, Raised}
      ensures flow in {Waiting, Continue} ==> Settled() && job.phase != Completed
      ensures flow == Deferred ==> Ready()
      ensures Lawful() && job.phase != Completed
    {
      hide Legal;
      hide Replay;
      if !ChecksAllow(job, job.pr.value, job.publication.value) {
        flow := Block();
        return;
      }
      match a.final {
        case Unsettled => flow := Deferred;
        case Refused => flow := Raised;
        case Offline => flow := OperationFailed();
        case Got(live) =>
          Append(PrRead(job.pr.value, live));
          if GateOpen(job, live, a.acceptanceCurrent) {
            flow := Proceed;
          } else {
            flow := Block();
          }
      }
    }

    /** Checks, authority, the final read and both live branch heads must agree. */
    method PassGate(a: Answers) returns (flow: Flow)
      requires Settled() && Running() && job.pr.Some?
      modifies this`job, this`history
      ensures old(history) <= history
      ensures flow == Proceed && a.final.Got? ==>
                history == old(history) + [PrRead(old(job.pr).value, a.final.value)]
      ensures flow == Proceed <==> GatePasses(old(job), a)
      ensures flow == Proceed ==>
                && a.final.value.mergeable
                && Running() && job == BindReceipts(old(job), old(job.pr).value)
                && Book().seen == Some((old(job.pr).value, a.final.value))
                && Book().current == old(Book().current)
      ensures flow in {Proceed, Waiting, Continue, Deferred, Raised}
      ensures flow in {Waiting, Continue} ==> Settled()
      ensures flow == Deferred ==> Ready()
      ensures Lawful() && job.phase != Completed
    {
      hide Legal;
      hide Replay;
      hide LedgerInv;
      hide FinalReadPasses;
      hide IntegrationValid;
      hide SnapshotCurrent;
      hide BindReceipts;
      flow := ReadFinal(a);
      if flow != Proceed { return; }
      flow := Reconcile(a, AtGate);
      if flow != Proceed { return; }
      flow := BindAtGate(a);
    }

    /** Bind the receipts to the pull request, in memory, and honour a stop request. */
    method BindAtGate(a: Answers) returns (flow: Flow)
      requires Running() && job.pr.Some?
      modifies this`job, this`history
      ensures old(history) <= history
      ensures flow == if CanPause(BindReceipts(old(job), old(job.pr).value)) && a.stop(AtGate) then Waiting else Proceed
      ensures flow == Proceed ==> Running() && job == BindReceipts(old(job), old(job.pr).value) && history == old(history)
      ensures flow == Waiting ==> Settled()
      ensures Lawful() && job.phase != Completed
    {
      hide Legal;
      hide Replay;
      hide LedgerInv;
      job := BindReceipts(job, job.pr.value);
      var paused := PauseIfRequested(a, AtGate);
      flow := if paused then Waiting else Proceed;
    }

    function RecordOf(job: Job, live: Live): MergeRecord
      requires job.pr.Some? && job.checks.Some? && job.publication.Some?
    {
      MergeRecord(job.authority, job.pr.value, PublicationBase(job), job.candidate, git.tree(job.candidate),
                  job.publication.value, job.checks.value, live)
    }

    /** The job that is saved before its merge may be sent. */
    function ArmedJob(job: Job, live: Live): Job
      requires job.pr.Some? && job.checks.Some? && job.publication.Some?
    {
      job.(record := Some(RecordOf(job, live)), phase := Merging,
           mergeIntent := if job.mergeIntent.None? then Some(ExpectedIntent(contract, job)) else job.mergeIntent)
    }

    /** Save the merge intent and the integration record before anything is sent. */
    method Arm(a: Answers) returns (flow: Flow)
      requires Running() && job.pr.Some? && a.final.Got? && a.final.value.mergeable
      requires Book().seen == Some((job.pr.value, a.final.value))
      requires ChecksAllow(job, job.pr.value, job.publication.value)
      modifies this`job, this`history
      ensures old(history) <= history
      ensures flow == Proceed ==> history == old(history) + [Saved(job)]
      ensures flow == Proceed <==>
                && (old(job.mergeIntent).None? || IntentMatches(contract, old(job)))
                && !(CanPause(ArmedJob(old(job), a.final.value)) && a.stop(AtArmed))
      ensures flow == Proceed ==>
                && Settled() && Running() && job == ArmedJob(old(job), a.final.value)
                && Book().seen == old(Book().seen) && Book().current == old(Book().current)
      ensures old(job.mergeIntent).Some? && !IntentMatches(contract, old(job)) ==> flow == Continue && job.phase == Blocked
      ensures flow in {Proceed, Waiting, Continue}
      ensures Settled() && job.phase != Completed
    {
      hide Legal;
      hide Replay;
      hide LedgerInv;
      job := job.(record := Some(RecordOf(job, a.final.value)));
      if job.mergeIntent.None? {
        job := job.(mergeIntent := Some(ExpectedIntent(contract, job)));
      } else if !IntentMatches(contract, job) {
        flow := Block();
        return;
      }
      job := job.(phase := Merging);
      Append(Saved(job));
      var paused := PauseIfRequested(a, AtArmed);
      flow := if paused then Waiting else Proceed;
    }

    /** What the merge gate demands of a job that is already durable in `Merging`. */
    ghost predicate GatePassed()
      reads this
    {
      && job.pr.Some? && job.publication.Some?
      && MergeGate(contract, git, Book(), job.pr.value, job.publication.value, job.message)
    }

    /** An armed job whose gate was just passed has everything a merge demands. */
    lemma ArmedJobPassesGate(before: Job, live: Live, acceptanceCurrent: bool)
      requires job.publication.Some? && job.pr.Some?
      requires before.pr.Some? && before.publication.Some?
      requires GateOpen(before, live, acceptanceCurrent) && ChecksAllow(before, before.pr.value, before.publication.value)
      requires before.mergeIntent.None? || IntentMatches(contract, before)
      requires job == ArmedJob(BindReceipts(before, before.pr.value), live) && job == Book().durable
      requires Book().current && Book().seen == Some((job.pr.value, live))
      ensures GatePassed()
    {
    }

    /** Spend one attempt of the saved intent, durably, before the call; three is the limit. */
    method SendMerge(a: Answers) returns (flow: Flow)
      requires Settled() && Running() && GatePassed() && !WritePending(job)
      modifies this`job, this`history
      ensures old(history) <= history
      ensures flow == Proceed && a.merge.MergedAs? ==>
                && |history| == |old(history)| + 4
                && history[|old(history)| + 3] == Saved(job)
                && history[|old(history)| + 2] == MergeReturned(old(job.pr).value, a.merge.sha)
      ensures old(job.mergeIntent).value.attempts < MAX_MERGE_ATTEMPTS ==>
                && |history| >= |old(history)| + 2 && history[|old(history)|].Saved?
                && history[|old(history)| + 1] ==
                     MergeSent(old(job.pr).value, old(job.publication).value, old(job.message))
      ensures old(job.mergeIntent).value.attempts >= MAX_MERGE_ATTEMPTS ==> history == old(history) + [Saved(old(job))]
      ensures flow == Proceed <==> old(job.mergeIntent).value.attempts < MAX_MERGE_ATTEMPTS && a.merge.MergedAs?
      ensures flow == Proceed ==>
                && Settled() && Running()
                && job == old(job).(
                     mergeIntent := Some(old(job.mergeIntent).value.(attempts := old(job.mergeIntent).value.attempts + 1)),
                     integrated := Some(a.merge.sha), integratedPublication := old(job.publication))
      ensures old(job.mergeIntent).value.attempts >= MAX_MERGE_ATTEMPTS ==> flow == Waiting && job == old(job)
      ensures flow in {Proceed, Waiting, Deferred, Raised}
      ensures flow == Waiting ==> Settled() && job.phase == Merging
      ensures flow == Deferred ==> Ready()
      ensures Lawful() && job.phase == Merging
    {
      hide Legal;
      hide Replay;
      var intent := job.mergeIntent.value;
      if intent.attempts >= MAX_MERGE_ATTEMPTS {
        flow := WaitForGitHub();
        return;
      }
      SpendAttempt();
      Append(MergeSent(job.pr.value, job.publication.value, job.message));
      match a.merge {
        case MergeUnsettled => flow := Deferred;
        case MergeRefused => flow := Raised;
        case MergeOffline => flow := Raised;
        case OutcomeUnknown => flow := WaitForGitHub();
        case MergedAs(sha) =>
          Append(MergeReturned(job.pr.value, sha));
          job := job.(integrated := Some(sha), integratedPublication := job.publication);
          Save();
          flow := Proceed;
      }
    }

    method SpendAttempt()
      requires Settled() && Running() && GatePassed() && job.mergeIntent.value.attempts < MAX_MERGE_ATTEMPTS
      modifies this`job, this`history
      ensures history == old(history) + [Saved(job)]
      ensures job == old(job).(mergeIntent := Some(old(job.mergeIntent).value.(attempts := old(job.mergeIntent).value.attempts + 1)))
      ensures Settled() && Running() && GatePassed()
      ensures Book().sent < job.mergeIntent.value.attempts
    {
      hide Legal;
      hide Replay;
      job := job.(mergeIntent := Some(job.mergeIntent.value.(attempts := job.mergeIntent.value.attempts + 1)));
      Save();
    }

    /** After a merge call succeeded: sync the target, read the result live, close the ticket, complete. */
    method FinishMerge(a: Answers) returns (flow: Flow)
      requires Settled() && Running() && job.pr.Some? && job.integrated.Some?
      modifies this`job, this`history
      ensures old(history) <= history
      ensures job.phase == Completed && a.merged.Got? && a.closing.Got? ==>
                && |history| == |old(history)| + 6
                && history[|old(history)|] == PrRead(old(job.pr).value, a.merged.value)
                && history[|old(history)| + 1] == PrRead(old(job.pr).value, a.closing.value)
                && history[|old(history)| + 2].Saved? && history[|old(history)| + 3] == TicketClosed
                && history[|old(history)| + 4].Saved? && history[|old(history)| + 5] == Saved(job)
      ensures job.phase == Completed <==>
                a.sync == Done && a.merged.Got? && a.merged.value.state == MergedState
                && ClosesOut(old(job), a) && old(job.record).Some?
      ensures job.phase == Completed ==> flow == Waiting
      ensures job.phase == Completed ==> job.pr == old(job.pr)
      ensures flow in {Waiting, Deferred, Raised}
      ensures flow == Waiting ==> Settled()
      ensures flow == Deferred ==> Ready()
      ensures Lawful()
    {
      hide Legal;
      hide Replay;
      hide LedgerInv;
      hide JobInv;
      hide IntentAdvances;
      flow := Operation(a.sync);
      if flow != Proceed { return; }
      match a.merged {
        case Unsettled => flow := Deferred;
        case Refused => flow := Raised;
        case Offline => flow := OperationFailed();
        case Got(live) =>
          Append(PrRead(job.pr.value, live));
          if live.state != MergedState {
            flow := WaitForGitHub();
            return;
          }
          flow := AfterMerge(a);
          if flow != Proceed { return; }
          flow := Complete();
      }
    }

    /** The merge of this publication is sent, and sent successfully, for exactly these answers. */
    predicate Merges(job: Job, a: Answers)
      requires job.pr.Some? && job.publication.Some?
    {
      var bound := BindReceipts(job, job.pr.value);
      && GatePasses(job, a)
      && (job.mergeIntent.None? || IntentMatches(contract, job))
      && !(CanPause(ArmedJob(bound, a.final.value)) && a.stop(AtArmed))
      && (job.mergeIntent.Some? ==> job.mergeIntent.value.attempts < MAX_MERGE_ATTEMPTS)
      && a.merge.MergedAs?
    }

    /** Copying the observation into a receipt changes nothing that the merge looks at. */
    lemma BindingKeepsBoundary(before: Job)
      requires before.pr.Some? && before.publication.Some?
      ensures var bound := BindReceipts(before, before.pr.value);
              && bound.pr == before.pr && bound.publication == before.publication
              && bound.mergeIntent == before.mergeIntent && bound.checks == before.checks
              && bound.writeIntent == before.writeIntent
              && IntentMatches(contract, bound) == IntentMatches(contract, before)
    {
    }

    /** Arming changes nothing that the closeout looks at. */
    lemma ArmingKeepsCloseout(before: Job, live: Live, a: Answers, sha: Sha)
      requires before.pr.Some? && before.publication.Some? && before.checks.Some?
      ensures ClosesOut(ArmedJob(BindReceipts(before, before.pr.value), live).(integrated := Some(sha)), a)
              == ClosesOut(before.(integrated := Some(sha)), a)
    {
    }

    method GateAndArm(a: Answers) returns (flow: Flow)
      requires Settled() && Running() && job.pr.Some? && Book().current && !WritePending(job)
      modifies this`job, this`history
      ensures old(history) <= history
      ensures flow == Proceed && a.final.Got? ==>
                history == old(history) + [PrRead(old(job.pr).value, a.final.value), Saved(job)] && job.phase == Merging
      ensures flow == Proceed ==>
                && Settled() && Running() && GatePassed() && a.final.Got? && !WritePending(job)
                && job.pr == old(job.pr)
                && (old(job.mergeIntent).None? || IntentMatches(contract, old(job)))
                && old(job.checks).Some?
                && job == ArmedJob(BindReceipts(old(job), old(job.pr).value), a.final.value)
      ensures Merges(old(job), a) <==>
                flow == Proceed && a.merge.MergedAs? && job.mergeIntent.value.attempts < MAX_MERGE_ATTEMPTS
      ensures flow in {Proceed, Waiting, Continue, Deferred, Raised}
      ensures flow in {Waiting, Continue} ==> Settled()
      ensures flow == Deferred ==> Ready()
      ensures Lawful() && job.phase != Completed
    {
      hide Legal;
      hide Replay;
      hide LedgerInv;
      hide JobInv;
      hide IntentAdvances;
      hide MergeGate;
      hide BindReceipts;
      hide GateOpen;
      hide SnapshotCurrent;
      hide IntentMatches;
      ghost var before := job;
      BindingKeepsBoundary(before);
      flow := PassGate(a);
      if flow != Proceed { return; }
      flow := Arm(a);
      if flow != Proceed { return; }
      ArmedJobPassesGate(before, a.final.value, a.acceptanceCurrent);
    }

    /** The events of an armed job's own merge and closeout, in order. */
    predicate MergeTrail(trail: seq<Event>, pr: nat, a: Answers) {
      && |trail| == 10
      && trail[0].Saved? && trail[1].MergeSent?
      && a.merge.MergedAs? && trail[2] == MergeReturned(pr, a.merge.sha) && trail[3].Saved?
      && a.merged.Got? && trail[4] == PrRead(pr, a.merged.value)
      && a.closing.Got? && trail[5] == PrRead(pr, a.closing.value)
      && trail[6].Saved? && trail[7] == TicketClosed && trail[8].Saved?
      && trail[9].Saved? && trail[9].job.phase == Completed && trail[9].job.pr == Some(pr)
    }

    method MergeArmed(a: Answers) returns (flow: Flow)
      requires Settled() && Running() && GatePassed() && job.record.Some? && !WritePending(job)
      modifies this`job, this`history
      ensures old(history) <= history
      ensures job.phase == Completed ==> MergeTrail(history[|old(history)|..], old(job.pr).value, a)
      ensures job.phase == Completed <==>
                && old(job.mergeIntent).value.attempts < MAX_MERGE_ATTEMPTS && a.merge.MergedAs?
                && a.sync == Done && a.merged.Got? && a.merged.value.state == MergedState
                && ClosesOut(old(job).(integrated := Some(a.merge.sha)), a)
      ensures job.phase == Completed ==> flow == Waiting
      ensures flow in {Waiting, Continue, Deferred, Raised}
      ensures flow in {Waiting, Continue} ==> Settled()
      ensures flow == Deferred ==> Ready()
      ensures Lawful()
    {
      hide Legal;
      hide Replay;
      hide LedgerInv;
      hide JobInv;
      hide IntentAdvances;
      hide MergeGate;
      flow := SendMerge(a);
      if flow != Proceed { return; }
      ghost var sent := history;
      flow := FinishMerge(a);
      if job.phase == Completed {
        ghost var trail := history[|old(history)|..];
        assert forall n :: 0 <= n < 4 ==> trail[n] == sent[|old(history)| + n];
      }
    }

    /** A ticket completes here exactly when its merge is sent successfully and then closes out. */
    method GateAndMerge(a: Answers) returns (flow: Flow)
      requires Settled() && Running() && job.pr.Some? && Book().current && !WritePending(job)
      modifies this`job, this`history
      ensures old(history) <= history
      ensures job.phase == Completed ==>
                var n, pr := |old(history)|, old(job.pr).value;
                && |history| == n + 12 && a.final.Got?
                && history[n] == PrRead(pr, a.final.value)
                && history[n + 1].Saved? && history[n + 1].job.phase == Merging
                && MergeTrail(history[n + 2..], pr, a)
      ensures job.phase == Completed <==> Delivers(old(job), a)
      ensures job.phase == Completed ==> flow == Waiting
      ensures flow in {Waiting, Continue, Deferred, Raised}
      ensures flow in {Waiting, Continue} ==> Settled()
      ensures flow == Deferred ==> Ready()
      ensures Lawful()
    {
      hide Legal;
      hide Replay;
      hide LedgerInv;
      hide JobInv;
      hide IntentAdvances;
      hide MergeGate;
      hide Merges;
      hide ClosesOut;
      hide BindReceipts;
      ghost var before := job;
      flow := GateAndArm(a);
      if flow != Proceed { return; }
      if a.merge.MergedAs? { ArmingKeepsCloseout(before, a.final.value, a, a.merge.sha); }
      ghost var armed := history;
      flow := MergeArmed(a);
      if job.phase == Completed {
        assert history[|old(history)| + 2..] == history[|armed|..];
      }
    }

    // ---- The whole routine ----

    /** Before a first push, with the heads still where the integration record saw them. */
    ghost predicate LocatesFresh(job: Job, a: Answers) {
      && Quiet(a) && Authorized(git, job) && job.pr.None?
      && SnapshotCurrent(job, a.heads(AtSnapshot))
      && a.heads(AtRequirements) == Got(Heads(Some(PublicationSource(job)), PublicationBase(job)))
    }

    method Locate(a: Answers) returns (flow: Flow, published: bool)
      requires Settled() && Running() && InPublication(job.phase) && !WritePending(job)
      modifies this`job, this`history
      ensures old(history) <= history
      ensures LocatesFresh(old(job), a) ==> flow == Proceed
      ensures flow == Proceed ==> Settled() && Running() && job == old(job) && Authorized(git, job) && LookedOpen()
      ensures flow in {Waiting, Continue} ==> Settled()
      ensures flow == Deferred ==> Ready()
      ensures flow != RolledBack && Lawful()
    {
      hide Legal;
      hide Replay;
      hide LedgerInv;
      hide JobInv;
      hide IntentAdvances;
      published := false;
      if !Authorized(git, job) { return Raised, false; }
      if job.phase !in {Merging, Merged} {
        flow := RejectStale(a, AtStart);
        if flow != Proceed { return; }
      }
      if job.pr.Some? {
        flow, published := ObserveExisting(a);
        if flow != Proceed { return; }
      }
      flow := RejectStale(a, AtRequirements);
      if flow != Proceed { return; }
      if job.pr.None? {
        flow, published := ObserveRefs(a);
      }
    }

    /** The job after the push is acknowledged and the pull request is known. */
    function Published(job: Job, number: nat): Job {
      WithPr(job.(published := job.publication, writeIntent := None), number)
    }

    method PublishSource(a: Answers) returns (flow: Flow)
      requires Settled() && Running() && InPublication(job.phase) && !WritePending(job)
      modifies this`job, this`history
      ensures old(history) <= history
      ensures flow == Proceed ==>
                && Settled() && Running() && Authorized(git, old(job))
                && LookedOpen()
                && job == old(job).(published := old(job.publication), writeIntent := job.writeIntent)
      ensures flow == Proceed && old(job.writeIntent).None? ==> job.writeIntent.None?
      ensures LocatesFresh(old(job), a) && a.verify == Done && a.push == PushDone ==> flow == Proceed
      ensures flow in {Waiting, Continue} ==> Settled()
      ensures flow == Deferred ==> Ready()
      ensures flow != RolledBack && Lawful()
    {
      hide Legal;
      hide Replay;
      hide LedgerInv;
      hide JobInv;
      hide IntentAdvances;
      var published;
      flow, published := Locate(a);
      if flow != Proceed { return; }
      flow := VerifyBeforePush(a);
      if flow != Proceed { return; }
      flow := Publish(a, published);
    }

    /** Push and pull request creation succeed on the first try. */
    ghost predicate PublishesFresh(job: Job, a: Answers) {
      && LocatesFresh(job, a) && job.writeIntent.None?
      && a.verify == Done && a.push == PushDone
      && a.pulls == Got(NoPull) && a.prWrite.Written? && !a.prSaveFails
      && a.created.Got? && a.created.value.state in {Unstated, Open}
    }

    method PublishHead(a: Answers) returns (flow: Flow)
      requires Settled() && Running() && InPublication(job.phase) && !WritePending(job)
      modifies this`job, this`history
      ensures old(history) <= history
      ensures flow == Proceed ==>
                && Settled() && Running() && job.pr.Some?
                && Authorized(git, old(job))
                && a.created.Got? && a.created.value.state in {Unstated, Open}
                && job.writeIntent.None? && job == Published(old(job), job.pr.value)
      ensures PublishesFresh(old(job), a) ==> flow == Proceed && job.pr == Some(a.prWrite.number)
      ensures flow in {Waiting, Continue, RolledBack} ==> Settled()
      ensures flow == Deferred ==> Ready()
      ensures Lawful()
    {
      hide Legal;
      hide Replay;
      hide LedgerInv;
      hide JobInv;
      hide IntentAdvances;
      flow := PublishSource(a);
      if flow != Proceed { return; }
      flow := EnsurePullRequest(a);
      if flow != Proceed { return; }
      flow := ReadCreated(a);
    }

    /** The job after its Required Checks were committed. */
    function Checked(job: Job, o: Observation): Job
      requires job.pr.Some?
    {
      BindReceipts(job.(retries := 0, checks := Some(o)), job.pr.value)
    }

    /** The observation lets a job with this pull request go on. */
    predicate ChecksPass(job: Job, a: Answers) {
      && a.checks.Got? && !a.contradictory && Names(a.checks.value, job)
      && a.identity.Got? && LiveIdentityMatches(contract, job, a.identity.value)
      && a.current(AtChecks) && a.validates && a.checks.value.result in {NoChecks, Pass}
    }

    /** The merge is sent, succeeds, and its result closes the ticket. */
    predicate Delivers(job: Job, a: Answers)
      requires job.pr.Some? && job.publication.Some?
    {
      && Merges(job, a)
      && a.sync == Done && a.merged.Got? && a.merged.value.state == MergedState
      && ClosesOut(job.(integrated := Some(a.merge.sha)), a)
    }

    /** Nothing was published yet, and every answer is the one the routine hopes for. */
    ghost predicate Smooth(job: Job, a: Answers) {
      && PublishesFresh(job, a)
      && ChecksPass(Published(job, a.prWrite.number), a)
      && Delivers(Checked(Published(job, a.prWrite.number), a.checks.value), a)
    }

    /** One complete pass: publish the head, ensure the pull request, observe the checks, gate and merge. */
    method PublishAndMerge(a: Answers) returns (flow: Flow)
      requires Settled() && Running() && InPublication(job.phase) && !WritePending(job)
      modifies this`job, this`history
      ensures old(history) <= history
      ensures Smooth(old(job), a) ==> job.phase == Completed && flow == Waiting
      ensures flow != Proceed
      ensures flow in {Waiting, Continue, RolledBack} ==> Settled()
      ensures flow == Deferred ==> Ready()
      ensures Lawful()
    {
      hide Legal;
      hide Replay;
      hide LedgerInv;
      hide JobInv;
      hide IntentAdvances;
      hide Merges;
      hide ClosesOut;
      hide BindReceipts;
      hide LocatesFresh;
      flow := PublishHead(a);
      if flow != Proceed { return; }
      flow := ObserveChecks(a);
      if flow != Proceed { return; }
      flow := GateAndMerge(a);
    }

    // ---- One activation of the engine ----

    /** Settle a pull request write that an earlier activation announced and may have sent. */
    method ReconcilePendingWrite(a: Answers) returns (flow: Flow)
      requires Settled() && Running() && !Early(job)
      modifies this`job, this`history
      ensures old(history) <= history
      ensures !WritePending(old(job)) ==> flow == Proceed && job == old(job) && history == old(history)
      ensures flow == Proceed && WritePending(old(job)) ==>
                && a.pendingWrite.Got? && !a.pendingSaveFails
                && (match Judged(old(job.writeIntent).value.narrative.value, a.pendingWrite.value)
                    case Foreign => false
                    case Absent => job == old(job).(writeIntent := None)
                    case Seen(number, _) => job == old(job).(writeIntent := None, pr := Some(number)))
      ensures flow == Proceed ==> Settled() && Running() && job.phase == old(job.phase) && !WritePending(job)
      ensures flow == RolledBack ==> job == old(job)
      ensures flow in {Proceed, Continue, RolledBack}
      ensures Settled() && job.phase != Completed
    {
      hide Legal;
      hide Replay;
      hide LedgerInv;
      if !WritePending(job) { return Proceed; }
      if !a.pendingWrite.Got? {
        flow := Block();
        return;
      }
      var back := Judged(job.writeIntent.value.narrative.value, a.pendingWrite.value);
      if back.Foreign? {
        flow := Block();
        return;
      }
      if back.Seen? { Append(PrFound(back.number)); }
      var before := job;
      job := job.(writeIntent := None, pr := if back.Seen? then Some(back.number) else job.pr);
      if a.pendingSaveFails {
        job := before;
        return RolledBack;
      }
      Append(Saved(job));
      flow := Proceed;
    }

    /** One activation on a job in a publication phase. A GitHub error that may settle becomes a durable wait. */
    method Step(a: Answers) returns (flow: Flow)
      requires Settled() && Running() && InPublication(job.phase)
      modifies this`job, this`history
      ensures old(history) <= history
      ensures old(job.phase) != WaitingMerge && Smooth(old(job), a) ==> job.phase == Completed && flow == Waiting
      ensures flow in {Waiting, Continue, RolledBack, Raised}
      ensures flow != Raised ==> Settled()
      ensures Lawful()
    {
      hide Legal;
      hide Replay;
      hide LedgerInv;
      hide ChecksPass;
      hide Delivers;
      var paused := PauseIfRequested(a, AtEngine);
      if paused { return Waiting; }
      if !Authorized(git, job) { return Raised; }
      flow := ReconcilePendingWrite(a);
      if flow != Proceed { return; }
      if job.phase == WaitingMerge {
        job := job.(phase := Merging);
        Save();
      }
      flow := PublishAndMerge(a);
      if flow == Deferred {
        Save();
        flow := Waiting;
      }
    }

    /** One activation on any job. Phases outside publication belong to other stages. */
    method Advance(a: Answers) returns (flow: Flow)
      requires Settled()
      modifies this`job, this`history
      ensures old(history) + [Began] <= history
      ensures !InPublication(old(job.phase)) ==> history == old(history) + [Began]
      ensures !InPublication(old(job.phase)) ==> flow == Waiting && job == old(job)
      ensures old(job.phase) == Publishing && Smooth(old(job), a) ==> job.phase == Completed && flow == Waiting
      ensures flow in {Waiting, Continue, RolledBack, Raised}
      ensures flow != Raised ==> Settled()
      ensures Lawful()
    {
      Append(Began);
      if !InPublication(job.phase) { return Waiting; }
      flow := Step(a);
    }

  }
}
