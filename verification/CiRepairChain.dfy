/**
 * The repair cycle of a Ticket whose CI repairs are not reviewed: failed head, charged repair, new
 * candidate, new publication authority, new head - and the evidence chain that leads from every head
 * back to one that was published under acceptance or fallback.
 */
module CiRepairChain {
  import opened Common
  import Quota = CiBudget

  datatype Authority = Acceptance | Fallback | CiRepair

  /** The snapshot of the authority behind a failed publication. */
  datatype Authorization = Authorization(authority: Authority, head: Sha, candidate: Sha, tree: nat)

  /** What an unreviewed CI repair may be published on. */
  datatype Receipt = Receipt(candidate: Sha, tree: nat, failureHead: Sha, previous: Authorization)

  datatype Phase = Repairing | Candidate | Accepted | Published | Escalating

  /** What became public: a head and the authority it was published under, or its exact-head failure. */
  datatype Event =
    | Head(head: Sha, candidate: Sha, authority: Authority, failureHead: Option<Sha>)
    | Failed(failed: Sha)

  predicate IsHead(log: seq<Event>, i: nat) { i < |log| && log[i].Head? }

  /** The head at `i` repairs the head at `j`, whose Required Checks failed in between. */
  predicate Repairs(git: Git, log: seq<Event>, i: nat, j: nat)
    requires IsHead(log, i) && IsHead(log, j)
  {
    && j < i
    && log[i].authority == CiRepair
    && log[i].failureHead == Some(log[j].head)
    && Failed(log[j].head) in log[j..i]
    && git.isAncestor(log[j].head, log[i].candidate)
    && git.tree(log[i].candidate) != git.tree(log[j].candidate)
  }

  /** The failed head at `j` is the one that a repair to `candidate` may build on. */
  predicate Backs(git: Git, log: seq<Event>, j: nat, failureHead: Sha, candidate: Sha) {
    && IsHead(log, j) && log[j].head == failureHead
    && Failed(failureHead) in log[j..]
    && git.isAncestor(failureHead, candidate)
    && git.tree(candidate) != git.tree(log[j].candidate)
  }

  predicate Grounded(git: Git, log: seq<Event>, i: nat)
    requires IsHead(log, i)
  {
    log[i].authority != CiRepair || exists j :: 0 <= j < i && IsHead(log, j) && Repairs(git, log, i, j)
  }

  predicate AllGrounded(git: Git, log: seq<Event>) {
    forall i :: 0 <= i < |log| && IsHead(log, i) ==> Grounded(git, log, i)
  }

  /** A path of repairs from a head with ordinary authority up to the head at `i`. */
  predicate Chain(git: Git, log: seq<Event>, path: seq<nat>, i: nat) {
    && |path| > 0
    && (forall k :: 0 <= k < |path| ==> IsHead(log, path[k]))
    && path[|path| - 1] == i
    && log[path[0]].authority != CiRepair
    && forall k :: 0 < k < |path| ==> Repairs(git, log, path[k], path[k - 1])
  }

  ghost predicate EndsChain(git: Git, log: seq<Event>, i: nat) {
    exists path :: Chain(git, log, path, i)
  }

  lemma {:induction false} GroundedHeadsEndChains(git: Git, log: seq<Event>, i: nat)
    requires AllGrounded(git, log) && IsHead(log, i)
    ensures EndsChain(git, log, i)
    decreases i
  {
    assert Grounded(git, log, i);
    if log[i].authority != CiRepair {
      assert Chain(git, log, [i], i);
    } else {
      var j :| 0 <= j < i && IsHead(log, j) && Repairs(git, log, i, j);
      GroundedHeadsEndChains(git, log, j);
      var before :| Chain(git, log, before, j);
      assert Chain(git, log, before + [i], i);
    }
  }

  lemma GrowGrounded(git: Git, log: seq<Event>, e: Event)
    requires AllGrounded(git, log)
    requires e.Head? && e.authority == CiRepair ==>
               exists j :: 0 <= j < |log| && IsHead(log + [e], j) && Repairs(git, log + [e], |log|, j)
    ensures AllGrounded(git, log + [e])
  {
    forall i | 0 <= i < |log| && IsHead(log + [e], i) ensures Grounded(git, log + [e], i) {
      assert IsHead(log, i) && Grounded(git, log, i);
      if log[i].authority == CiRepair {
        var j :| 0 <= j < i && IsHead(log, j) && Repairs(git, log, i, j);
        assert (log + [e])[j..i] == log[j..i];
        assert Repairs(git, log + [e], i, j);
      }
    }
  }

  // ---- What one step does ----

  /** The CI repair facts of one Ticket; `log` is what became public, in order. */
  datatype Ticket = Ticket(
    phase: Phase, candidate: Sha, ciAttempt: bool, publication: Option<Sha>, authority: Authority,
    receipt: Option<Receipt>, previous: Option<Authorization>, failedObservation: Option<Sha>,
    log: seq<Event>, quota: Quota.State)

  function Initial(candidate: Sha, byFallback: bool): Ticket {
    Ticket(Accepted, candidate, false, None, if byFallback then Fallback else Acceptance, None, None, None, [], Quota.INITIAL)
  }

  /** The entry that publishing `head` adds to the log. */
  function HeadOf(t: Ticket, head: Sha): Event {
    Head(head, t.candidate, t.authority,
         if t.authority == CiRepair && t.receipt.Some? then Some(t.receipt.value.failureHead) else None)
  }

  /** The authority behind the current publication, if it is one that a repair may build on. */
  function PreviousAuthorization(git: Git, t: Ticket): Option<Authorization> {
    if t.publication.None? then None
    else if t.authority == CiRepair then
      if t.receipt.None? then None
      else Some(Authorization(CiRepair, t.publication.value, t.receipt.value.candidate, t.receipt.value.tree))
    else Some(Authorization(t.authority, t.publication.value, t.candidate, git.tree(t.candidate)))
  }

  function Routed(limit: nat, s: Quota.State): Phase {
    if s.used < limit && !s.exhausted then Repairing else Escalating
  }

  /** Everything the unreviewed publication of a CI repair rests on. */
  predicate MayAuthorize(git: Git, t: Ticket) {
    && t.ciAttempt && t.previous.Some? && t.quota.failureHead.Some? && t.failedObservation == t.quota.failureHead
    && t.quota.used >= 1 && t.quota.repairPending && !t.quota.exhausted
    && t.previous.value.head == t.quota.failureHead.value
    && git.isAncestor(t.quota.failureHead.value, t.candidate)
    && git.differs(t.quota.failureHead.value, t.candidate)
    && t.previous.value.candidate != t.candidate && t.previous.value.tree != git.tree(t.candidate)
  }

  datatype Step =
    | PublishHead(head: Sha) | ChecksFail | Start | Commit(candidate: Sha) | GiveUp | Authorize
    | ResumeWindow | Drift | Ordinary(candidate: Sha, byFallback: bool)

  predicate Enabled(t: Ticket, step: Step) {
    match step
    case PublishHead(_) => t.phase == Accepted
    case ChecksFail => t.phase == Published
    case Start => t.phase == Repairing
    case Commit(_) => t.phase == Repairing
    case GiveUp => t.phase == Repairing && t.quota.used > 0 && t.quota.failureHead.Some?
    case Authorize => t.phase == Candidate
    case ResumeWindow => t.phase == Escalating
    case Drift => t.phase == Published
    case Ordinary(_, _) => t.phase == Accepted
  }

  function Next(git: Git, limit: nat, t: Ticket, step: Step): Ticket {
    if !Enabled(t, step) then t
    else match step
      case PublishHead(head) => t.(phase := Published, publication := Some(head), log := t.log + [HeadOf(t, head)])
      case ChecksFail =>
        if t.publication.None? then t
        else t.(phase := Routed(limit, t.quota), previous := PreviousAuthorization(git, t),
                failedObservation := t.publication, log := t.log + [Failed(t.publication.value)],
                quota := Quota.Observed(limit, t.quota, t.publication.value))
      case Start =>
        if Quota.CanStart(limit, t.quota) then t.(quota := Quota.AfterCharge(limit, t.quota, None))
        else t.(phase := Escalating, quota := Quota.AfterGate(limit, t.quota))
      case Commit(next) => t.(phase := Candidate, candidate := next, ciAttempt := true)
      case GiveUp =>
        t.(phase := Routed(limit, t.quota),
           quota := Quota.Observed(limit, t.quota.(repairPending := false), t.quota.failureHead.value))
      case Authorize =>
        if !MayAuthorize(git, t) then t
        else t.(phase := Accepted, authority := CiRepair,
                receipt := Some(Receipt(t.candidate, git.tree(t.candidate), t.quota.failureHead.value, t.previous.value)))
      case ResumeWindow => if t.quota.exhausted then t.(phase := Repairing, quota := Quota.Renewed(t.quota)) else t
      case Drift => t.(phase := Accepted, publication := None)
      case Ordinary(next, byFallback) =>
        t.(candidate := next, ciAttempt := false, authority := if byFallback then Fallback else Acceptance,
           receipt := None, publication := None)
  }

  function Fold(git: Git, limit: nat, first: Ticket, steps: seq<Step>): Ticket {
    if steps == [] then first
    else Next(git, limit, Fold(git, limit, first, steps[..|steps| - 1]), steps[|steps| - 1])
  }

  // ---- What every cycle keeps ----

  predicate IsPrevious(git: Git, t: Ticket, j: nat) {
    && t.previous.Some? && IsHead(t.log, j)
    && t.log[j].head == t.previous.value.head && t.log[j].candidate == t.previous.value.candidate
    && t.previous.value.tree == git.tree(t.log[j].candidate)
    && Failed(t.log[j].head) in t.log[j..]
  }

  /** The authority snapshot belongs to a published head, and that head is the quota's failed one. */
  predicate PreviousIsPublished(git: Git, t: Ticket) {
    && t.previous.Some? && t.quota.failureHead == Some(t.previous.value.head)
    && t.failedObservation == Some(t.previous.value.head)
    && exists j :: 0 <= j < |t.log| && IsPrevious(git, t, j)
  }

  /** An unreviewed CI repair receipt names its candidate, and the published head it repairs. */
  predicate ReceiptIsBacked(git: Git, t: Ticket) {
    && t.receipt.Some?
    && t.receipt.value.candidate == t.candidate && t.receipt.value.tree == git.tree(t.candidate)
    && exists j :: 0 <= j < |t.log| && Backs(git, t.log, j, t.receipt.value.failureHead, t.candidate)
  }

  predicate IsCurrent(t: Ticket, j: nat) {
    IsHead(t.log, j) && t.publication == Some(t.log[j].head) && t.log[j].candidate == t.candidate && t.log[j].authority == t.authority
  }

  predicate Sound(git: Git, limit: nat, t: Ticket) {
    && Quota.Sound(limit, t.quota)
    && AllGrounded(git, t.log)
    && (t.phase in {Repairing, Candidate, Escalating} ==> PreviousIsPublished(git, t))
    && (t.phase in {Accepted, Published} && t.authority == CiRepair ==> ReceiptIsBacked(git, t))
    && (t.phase == Published ==> exists k :: 0 <= k < |t.log| && IsCurrent(t, k))
  }

  lemma PublishIsSound(git: Git, limit: nat, t: Ticket, head: Sha)
    requires Sound(git, limit, t) && t.phase == Accepted
    ensures Sound(git, limit, Next(git, limit, t, PublishHead(head)))
  {
    var e := HeadOf(t, head);
    var after := Next(git, limit, t, PublishHead(head));
    if t.authority == CiRepair {
      var j :| 0 <= j < |t.log| && Backs(git, t.log, j, t.receipt.value.failureHead, t.candidate);
      assert after.log[j..|t.log|] == t.log[j..] && after.log[j..] == t.log[j..] + [e];
      assert Repairs(git, after.log, |t.log|, j);
      assert Backs(git, after.log, j, t.receipt.value.failureHead, t.candidate);
    }
    GrowGrounded(git, t.log, e);
    assert IsCurrent(after, |t.log|);
  }

  lemma FailureIsSound(git: Git, limit: nat, t: Ticket)
    requires Sound(git, limit, t) && t.phase == Published
    ensures Sound(git, limit, Next(git, limit, t, ChecksFail)) && t.publication.Some?
  {
    var k :| 0 <= k < |t.log| && IsCurrent(t, k);
    var after := Next(git, limit, t, ChecksFail);
    Quota.ObservationIsSound(limit, t.quota, t.publication.value);
    GrowGrounded(git, t.log, Failed(t.publication.value));
    assert after.log[|t.log|] in after.log[k..];
    assert IsPrevious(git, after, k);
  }

  lemma AuthorizationIsSound(git: Git, limit: nat, t: Ticket)
    requires Sound(git, limit, t) && t.phase == Candidate
    ensures Sound(git, limit, Next(git, limit, t, Authorize))
  {
    if MayAuthorize(git, t) {
      var j :| 0 <= j < |t.log| && IsPrevious(git, t, j);
      assert Backs(git, t.log, j, t.quota.failureHead.value, t.candidate);
    }
  }

  /** A step that touches neither the log nor the failed head keeps the previous authorization. */
  lemma PreviousStays(git: Git, t: Ticket, after: Ticket)
    requires PreviousIsPublished(git, t)
    requires after.log == t.log && after.previous == t.previous && after.failedObservation == t.failedObservation
    requires after.quota.failureHead == t.quota.failureHead
    ensures PreviousIsPublished(git, after)
  {
    var j :| 0 <= j < |t.log| && IsPrevious(git, t, j);
    assert IsPrevious(git, after, j);
  }

  lemma QuotaStepIsSound(git: Git, limit: nat, t: Ticket, step: Step)
    requires limit > 0 && Sound(git, limit, t) && Enabled(t, step)
    requires step in {Start, GiveUp, ResumeWindow} || step.Commit?
    ensures Sound(git, limit, Next(git, limit, t, step))
  {
    Quota.ChargeIsSound(limit, t.quota, None);
    Quota.CheckpointTruthfulExactly(limit, t.quota);
    Quota.RenewalIsSound(limit, t.quota);
    if step == GiveUp { Quota.ObservationIsSound(limit, t.quota.(repairPending := false), t.quota.failureHead.value); }
    PreviousStays(git, t, Next(git, limit, t, step));
  }

  lemma StepIsSound(git: Git, limit: nat, t: Ticket, step: Step)
    requires limit > 0 && Sound(git, limit, t)
    ensures Sound(git, limit, Next(git, limit, t, step))
  {
    if !Enabled(t, step) { return; }
    match step {
      case PublishHead(head) => PublishIsSound(git, limit, t, head);
      case ChecksFail => FailureIsSound(git, limit, t);
      case Authorize => AuthorizationIsSound(git, limit, t);
      case Drift =>
      case Ordinary(_, _) =>
      case _ => QuotaStepIsSound(git, limit, t, step);
    }
  }

  lemma {:induction false} CycleIsSound(git: Git, limit: nat, first: Sha, byFallback: bool, steps: seq<Step>)
    requires limit > 0
    ensures Sound(git, limit, Fold(git, limit, Initial(first, byFallback), steps))
  {
    if steps != [] {
      CycleIsSound(git, limit, first, byFallback, steps[..|steps| - 1]);
      StepIsSound(git, limit, Fold(git, limit, Initial(first, byFallback), steps[..|steps| - 1]), steps[|steps| - 1]);
    }
  }

  /**
   * Whatever happens, across failures and renewals: every head ever published ends a finite chain of repairs,
   * each candidate descending from the failed head before it, down to a head with ordinary authority.
   */
  lemma EveryHeadEndsAChain(git: Git, limit: nat, first: Sha, byFallback: bool, steps: seq<Step>, i: nat)
    requires limit > 0
    requires IsHead(Fold(git, limit, Initial(first, byFallback), steps).log, i)
    ensures EndsChain(git, Fold(git, limit, Initial(first, byFallback), steps).log, i)
  {
    CycleIsSound(git, limit, first, byFallback, steps);
    GroundedHeadsEndChains(git, Fold(git, limit, Initial(first, byFallback), steps).log, i);
  }

  // ---- The job that is updated in place ----

  class TicketCi {
    const git: Git
    const budget: Quota.Budget
    var phase: Phase
    var candidate: Sha
    var ciAttempt: bool                       // the current candidate came from a CI repair
    var publication: Option<Sha>
    var authority: Authority
    var receipt: Option<Receipt>
    var previous: Option<Authorization>       // the authority behind the failed head under repair
    var failedObservation: Option<Sha>        // the head whose Required Checks failed
    ghost var log: seq<Event>

    constructor (git: Git, limit: nat, candidate: Sha, byFallback: bool)
      requires limit > 0
      ensures Valid() && fresh(budget) && this.git == git && budget.limit == limit && View() == Initial(candidate, byFallback)
    {
      this.git := git;
      this.budget := new Quota.Budget(limit, false);
      this.candidate, this.authority := candidate, if byFallback then Fallback else Acceptance;
      phase, ciAttempt, publication := Accepted, false, None;
      receipt, previous, failedObservation, log := None, None, None, [];
    }

    ghost function View(): Ticket
      reads this, budget
    {
      Ticket(phase, candidate, ciAttempt, publication, authority, receipt, previous, failedObservation, log, budget.View())
    }

    ghost predicate Valid()
      reads this, budget
    {
      budget.Valid() && !budget.reviewRequired && Sound(git, budget.limit, View())
    }

    /** Publish a head for the accepted candidate under its current authority. */
    method Publish(head: Sha)
      requires Valid() && phase == Accepted
      modifies this`phase, this`publication, this`log
      ensures Valid() && View() == Next(git, budget.limit, old(View()), PublishHead(head))
    {
      hide Sound;
      PublishIsSound(git, budget.limit, View(), head);
      log := log + [HeadOf(View(), head)];
      publication, phase := Some(head), Published;
    }

    /** Required Checks failed on exactly the published head: record the failure and open a repair. */
    method RouteFailure() returns (decision: Quota.Decision)
      requires Valid() && phase == Published
      modifies this`phase, this`previous, this`failedObservation, this`log
      modifies budget`history, budget`failureHead, budget`repairPending, budget`exhausted
      ensures Valid() && View() == Next(git, budget.limit, old(View()), ChecksFail)
      ensures decision == if phase == Repairing then Quota.Repair else Quota.Exhausted
    {
      hide Sound;
      FailureIsSound(git, budget.limit, View());
      var head := publication.value;
      previous :=
        if authority == CiRepair then
          if receipt.None? then None
          else Some(Authorization(CiRepair, head, receipt.value.candidate, receipt.value.tree))
        else Some(Authorization(authority, head, candidate, git.tree(candidate)));
      decision := budget.ObserveFailure(head);
      failedObservation, log := publication, log + [Failed(head)];
      phase := if decision == Quota.Repair then Repairing else Escalating;
    }

    /** Start the scheduled repair: charge one attempt, or park the job when the quota is used up. */
    method StartRepair() returns (started: bool)
      requires Valid() && phase == Repairing
      modifies this`phase
      modifies budget`used, budget`repairPending, budget`workIds, budget`charges, budget`exhausted
      ensures Valid() && View() == Next(git, budget.limit, old(View()), Start)
      ensures started == (phase == Repairing)
    {
      QuotaStepIsSound(git, budget.limit, View(), Start);
      started := budget.StartOrCheckpoint();
      if started {
        var r := budget.ChargeAttempt(None);
      } else {
        phase := Escalating;
      }
    }

    /** The charged repair produced a new candidate. */
    method CommitCandidate(next: Sha)
      requires Valid() && phase == Repairing
      modifies this`phase, this`candidate, this`ciAttempt
      ensures Valid() && View() == Next(git, budget.limit, old(View()), Commit(next))
    {
      hide Sound;
      QuotaStepIsSound(git, budget.limit, View(), Commit(next));
      candidate, ciAttempt, phase := next, true, Candidate;
    }

    /** The repair ended without a candidate; the failure it answers is observed again. */
    method NoCandidate() returns (decision: Quota.Decision)
      requires Valid() && phase == Repairing && budget.used > 0
      modifies this`phase
      modifies budget`history, budget`failureHead, budget`repairPending, budget`exhausted
      ensures Valid() && View() == Next(git, budget.limit, old(View()), GiveUp)
    {
      QuotaStepIsSound(git, budget.limit, View(), GiveUp);
      var settled := budget.SettleWithoutCandidate();
      decision := budget.ObserveFailure(budget.failureHead.value);
      phase := if decision == Quota.Repair then Repairing else Escalating;
    }

    /** Authorize the repair for publication, or leave everything as it was. */
    method AuthorizeRepair() returns (ok: bool)
      requires Valid() && phase == Candidate
      modifies this`phase, this`authority, this`receipt
      ensures Valid() && View() == Next(git, budget.limit, old(View()), Authorize)
      ensures ok == MayAuthorize(git, old(View()))
    {
      hide Sound;
      AuthorizationIsSound(git, budget.limit, View());
      if !ciAttempt || previous.None? || budget.failureHead.None? || failedObservation != budget.failureHead { return false; }
      var failed := budget.failureHead.value;
      if budget.used < 1 || !budget.repairPending || budget.reviewRequired || previous.value.head != failed { return false; }
      if !git.isAncestor(failed, candidate) || !git.differs(failed, candidate) { return false; }
      if budget.exhausted || previous.value.candidate == candidate || previous.value.tree == git.tree(candidate) { return false; }
      receipt := Some(Receipt(candidate, git.tree(candidate), failed, previous.value));
      authority, phase := CiRepair, Accepted;
      ok := true;
    }

    /** An explicit resumption opens a new window for the same failed head. */
    method Resume() returns (renewed: bool)
      requires Valid() && phase == Escalating
      modifies this`phase
      modifies budget`window, budget`used, budget`workIds, budget`repairPending, budget`exhausted, budget`history
      ensures Valid() && View() == Next(git, budget.limit, old(View()), ResumeWindow)
      ensures renewed == old(budget.exhausted)
    {
      hide Sound;
      QuotaStepIsSound(git, budget.limit, View(), ResumeWindow);
      renewed := budget.Renew();
      if renewed { phase := Repairing; }
    }

    /** An outdated publication returns to the accepted candidate, whose authority survives. */
    method Invalidate()
      requires Valid() && phase == Published
      modifies this`phase, this`publication
      ensures Valid() && View() == Next(git, budget.limit, old(View()), Drift)
    {
      hide Sound;
      StepIsSound(git, budget.limit, View(), Drift);
      phase, publication := Accepted, None;
    }

    /** Ordinary development ends in a review acceptance or in a fallback for a new candidate. */
    method AcceptOrdinary(next: Sha, byFallback: bool)
      requires Valid() && phase == Accepted
      modifies this`candidate, this`ciAttempt, this`authority, this`receipt, this`publication
      ensures Valid() && View() == Next(git, budget.limit, old(View()), Ordinary(next, byFallback))
    {
      hide Sound;
      StepIsSound(git, budget.limit, View(), Ordinary(next, byFallback));
      candidate, ciAttempt, authority, receipt, publication :=
        next, false, if byFallback then Fallback else Acceptance, None, None;
    }

    method Take(step: Step)
      requires Valid()
      modifies this, budget
      ensures Valid() && View() == Next(git, budget.limit, old(View()), step)
    {
      hide Sound;
      match step {
        case PublishHead(head) => if phase == Accepted { Publish(head); }
        case ChecksFail => if phase == Published { var _ := RouteFailure(); }
        case Start => if phase == Repairing { var _ := StartRepair(); }
        case Commit(next) => if phase == Repairing { CommitCandidate(next); }
        case GiveUp => if phase == Repairing && budget.used > 0 { var _ := NoCandidate(); }
        case Authorize => if phase == Candidate { var _ := AuthorizeRepair(); }
        case ResumeWindow => if phase == Escalating { var _ := Resume(); }
        case Drift => if phase == Published { Invalidate(); }
        case Ordinary(next, byFallback) => if phase == Accepted { AcceptOrdinary(next, byFallback); }
      }
    }
  }

  /** The job and its quota, updated step by step, are exactly what the steps describe. */
  method Run(git: Git, limit: nat, first: Sha, byFallback: bool, steps: seq<Step>)
    returns (phase: Phase, candidate: Sha, authority: Authority, publication: Option<Sha>, used: nat, window: nat,
             ghost log: seq<Event>)
    requires limit > 0
    ensures var t := Fold(git, limit, Initial(first, byFallback), steps);
            && phase == t.phase && candidate == t.candidate && authority == t.authority && publication == t.publication
            && used == t.quota.used && window == t.quota.window && log == t.log
  {
    var t := new TicketCi(git, limit, first, byFallback);
    for n := 0 to |steps|
      invariant fresh(t) && fresh(t.budget) && t.Valid() && t.git == git && t.budget.limit == limit
      invariant t.View() == Fold(git, limit, Initial(first, byFallback), steps[..n])
    {
      assert steps[..n + 1][..n] == steps[..n];
      t.Take(steps[n]);
    }
    assert steps[..|steps|] == steps;
    phase, candidate, authority, publication := t.phase, t.candidate, t.authority, t.publication;
    used, window, log := t.budget.used, t.budget.window, t.log;
  }
}
