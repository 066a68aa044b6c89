/** The durable Ticket job of the publication stage, and the pure facts derived from it. */
module PublicationModel {
  import opened Common

  datatype Phase =
    | Accepted | Publishing | WaitingChecks | WaitingMerge | Merging | Merged
    | PublicationPending | Blocked | Repairing | Escalating | Completed

  /** The title and body saved before a pull request may be written. */
  datatype Narrative = Narrative(number: Option<nat>, prior: Option<Text>, target: Text)

  datatype WriteIntent =
    | PublishRef(branch: Text, expected: Sha, head: Sha)
    | EnsurePr(branch: Text, baseBranch: Text, baseSha: Sha, head: Sha, narrative: Option<Narrative>)

  datatype MergeIntent = MergeIntent(
    head: Sha, baseBranch: Text, baseSha: Sha, message: Text, revision: Option<nat>, attempts: nat)

  datatype CheckResult = NoChecks | Pass | Pending | Unknown | Fail

  /** One exact-head Required Checks observation. */
  datatype Observation = Observation(pr: nat, head: Sha, result: CheckResult, hasPendingBucket: bool)

  datatype Authority = Unset | ByReview | ByFallback | ByCiRepair

  datatype Acceptance = Acceptance(candidate: Sha, tree: nat)

  /** The fallback and the CI repair receipt share these identity fields. */
  datatype Receipt = Receipt(
    base: Sha, candidate: Sha, tree: nat, revision: Option<nat>, failureHead: Option<Sha>,
    boundPr: Option<nat>, boundHead: Option<Sha>, boundChecks: Option<Observation>)

  /** The deterministic record of one integrated source/target snapshot. */
  datatype Integration = Integration(
    base: Sha, candidate: Sha, candidateTree: nat, source: Sha, target: Sha, head: Sha, headTree: nat)

  datatype PrState = Unstated | Open | MergedState | Closed

  /** One live read of the change pull request. */
  datatype Live = Live(
    state: PrState, headBranch: Text, head: Sha, headRepo: Text, baseBranch: Text, baseSha: Sha,
    baseRepo: Text, mergeable: bool, integrated: Option<Sha>, headTree: nat, integratedTree: nat,
    integratedMessage: Text, integratedParents: seq<Sha>)

  /** The integration record that is saved before a merge may be sent. */
  datatype MergeRecord = MergeRecord(
    source: Authority, pr: nat, base: Sha, candidate: Sha, tree: nat, publication: Sha,
    checks: Observation, live: Live)

  datatype Job = Job(
    phase: Phase, resumePhase: Option<Phase>, pausePhase: Option<Phase>,
    base: Sha, candidate: Sha, revision: Option<nat>, ciAttempt: bool, ciFailureHead: Option<Sha>,
    publication: Option<Sha>, published: Option<Sha>, message: Text, narrative: Text,
    writeIntent: Option<WriteIntent>, pr: Option<nat>, mergeIntent: Option<MergeIntent>,
    integrated: Option<Sha>, integratedPublication: Option<Sha>,
    checks: Option<Observation>, authority: Authority, acceptance: Option<Acceptance>,
    fallbackReceipt: Option<Receipt>, ciReceipt: Option<Receipt>,
    integration: Option<Integration>, record: Option<MergeRecord>, retries: nat)

  /** The fixed descriptor of one Ticket change. */
  datatype Contract = Change(branch: Text, baseBranch: Text, repository: Text)

  const MAX_MERGE_ATTEMPTS := 3
  const MAX_OPERATION_ATTEMPTS := 5

  /** The target commit the publication was prepared against. */
  function PublicationBase(job: Job): Sha {
    match job.integration
    case Some(r) =>
      if r.candidate == job.candidate || (job.ciAttempt && r.head == job.candidate) then r.target else job.base
    case None => job.base
  }

  /** The commit whose tree the publication commit must carry. */
  function PublicationCandidate(job: Job): Sha {
    match job.integration
    case Some(r) => if r.candidate == job.candidate then r.head else job.candidate
    case None => job.candidate
  }

  /** The source head the push must find on the remote. */
  function PublicationSource(job: Job): Sha {
    match job.integration
    case Some(r) => r.source
    case None => match job.published case Some(p) => p case None => job.base
  }

  predicate IntegrationValid(git: Git, job: Job) {
    match job.integration
    case None => false
    case Some(r) =>
      && r.base == job.base
      && ((job.ciAttempt && r.head == job.candidate && r.headTree == git.tree(job.candidate))
          || (r.candidate == job.candidate && r.candidateTree == git.tree(job.candidate)))
      && r.candidateTree == git.tree(r.candidate)
      && r.headTree == git.tree(r.head)
      && git.isAncestor(r.candidate, r.head)
      && git.isAncestor(job.candidate, r.head)
      && git.isAncestor(r.source, r.head)
      && git.isAncestor(r.target, r.head)
  }

  predicate ReceiptNames(git: Git, job: Job, receipt: Option<Receipt>) {
    match receipt
    case None => false
    case Some(r) =>
      && r.base == job.base
      && r.candidate == job.candidate
      && r.tree == git.tree(job.candidate)
      && r.revision == job.revision
  }

  /** The active authority names the current candidate and its tree. */
  predicate AuthorityNamesCandidate(git: Git, job: Job) {
    match job.authority
    case ByFallback => ReceiptNames(git, job, job.fallbackReceipt) && job.acceptance.None?
    case ByCiRepair =>
      && ReceiptNames(git, job, job.ciReceipt)
      && job.ciReceipt.value.failureHead == job.ciFailureHead
      && job.acceptance.None?
    case _ =>
      && job.acceptance.Some?
      && job.acceptance.value.candidate == job.candidate
      && job.acceptance.value.tree == git.tree(job.candidate)
  }

  /** The authority check made before a Ticket in a publication phase is touched. */
  predicate Authorized(git: Git, job: Job) {
    && (job.phase in {Accepted, PublicationPending, Publishing, WaitingChecks, WaitingMerge, Merging} ==>
          && AuthorityNamesCandidate(git, job)
          && (job.authority == ByFallback || job.fallbackReceipt.None?)
          && (job.authority == ByCiRepair || job.ciReceipt.None?))
    && (job.phase in {WaitingChecks, WaitingMerge, Merging} ==>
          && job.publication.Some? && job.pr.Some? && job.checks.Some?
          && job.checks.value.pr == job.pr.value
          && job.checks.value.head == job.publication.value)
  }

  predicate ChecksAllow(job: Job, pr: nat, head: Sha) {
    && job.checks.Some?
    && job.checks.value.pr == pr
    && job.checks.value.head == head
    && job.checks.value.result in {NoChecks, Pass}
  }

  /** The complete live identity that brackets every Required Checks read. */
  predicate LiveIdentityMatches(contract: Contract, job: Job, live: Live) {
    && live.state in {Unstated, Open}
    && live.headBranch == contract.branch
    && job.publication == Some(live.head)
    && live.headRepo == contract.repository
    && live.baseBranch == contract.baseBranch
    && live.baseSha == PublicationBase(job)
    && live.baseRepo == contract.repository
  }

  /** A merged pull request is this publication and nothing else. */
  predicate MergedIdentityMatches(contract: Contract, job: Job, live: Live) {
    && live.headBranch == contract.branch
    && live.headRepo == contract.repository
    && live.baseRepo == contract.repository
    && job.publication == Some(live.head)
    && live.baseBranch == contract.baseBranch
  }

  /** The merge intent a job must carry to merge its current publication. */
  function ExpectedIntent(contract: Contract, job: Job): MergeIntent
    requires job.publication.Some?
  {
    MergeIntent(job.publication.value, contract.baseBranch, PublicationBase(job), job.message, job.revision, 0)
  }

  /** A saved merge intent still names the current boundary; how often it was used does not matter. */
  predicate IntentMatches(contract: Contract, job: Job) {
    && job.publication.Some? && job.mergeIntent.Some?
    && var m := job.mergeIntent.value;
    && m.head == job.publication.value
    && m.baseBranch == contract.baseBranch
    && m.baseSha == PublicationBase(job)
    && m.message == job.message
    && (job.revision.Some? ==> m.revision == job.revision)
  }

  /** A job that may be sent to merge carries an intent for exactly its own publication. */
  predicate Armed(job: Job) {
    job.publication.Some? && job.mergeIntent.Some? && job.mergeIntent.value.head == job.publication.value
  }

  /** The phases in which the engine publishes and merges. */
  predicate InPublication(phase: Phase) {
    phase in {Publishing, WaitingChecks, WaitingMerge, Merging, Merged}
  }

  /** A job may be, or be put back, in this phase. */
  predicate MayBeIn(job: Job, phase: Phase) {
    && (InPublication(phase) || phase == PublicationPending ==> job.publication.Some?)
    && (phase in {Merging, WaitingMerge} ==> Armed(job))
  }

  /** What every saved job satisfies. */
  predicate JobInv(job: Job) {
    && MayBeIn(job, job.phase)
    && (job.resumePhase.Some? ==>
          job.phase in {Blocked, PublicationPending} && job.resumePhase != Some(Completed)
          && MayBeIn(job, job.resumePhase.value))
    && (job.pausePhase.Some? ==>
          job.phase == Blocked && job.pausePhase.value !in {Merging, WaitingMerge, Completed}
          && MayBeIn(job, job.pausePhase.value))
    && (job.mergeIntent.Some? ==> job.mergeIntent.value.attempts <= MAX_MERGE_ATTEMPTS)
    && (job.record.Some? ==> job.mergeIntent.Some?)
  }

  /** The stages before publication own the job, now or when it is reopened. */
  predicate Early(job: Job) {
    || job.phase in {Accepted, Repairing, Escalating}
    || (job.resumePhase.Some? && job.resumePhase.value in {Accepted, Repairing, Escalating})
    || (job.pausePhase.Some? && job.pausePhase.value in {Accepted, Repairing, Escalating})
  }

  /** A pull request write was admitted, so it may have been sent. */
  predicate WritePending(job: Job) {
    job.writeIntent.Some? && job.writeIntent.value.EnsurePr? && job.writeIntent.value.narrative.Some?
  }

  /** A stop request may only interrupt work that has no unsettled remote write. */
  predicate CanPause(job: Job) {
    && job.phase !in {Completed, Merged, Blocked, Escalating, PublicationPending}
    && job.writeIntent.None?
    && (job.phase in {Merging, WaitingMerge} ==> job.mergeIntent.Some? && job.mergeIntent.value.attempts == 0)
  }

  /** Only a receipt of the active review-free authority copies the observation. */
  function BindReceipts(job: Job, pr: nat): Job {
    if job.checks.None? || job.publication.None? || job.checks.value.pr != pr
       || job.checks.value.head != job.publication.value then job
    else if job.authority == ByFallback && job.fallbackReceipt.Some? then
      job.(fallbackReceipt := Some(job.fallbackReceipt.value.(
        boundPr := Some(pr), boundHead := job.publication, boundChecks := job.checks)))
    else if job.authority == ByCiRepair && job.ciReceipt.Some? then
      job.(ciReceipt := Some(job.ciReceipt.value.(
        boundPr := Some(pr), boundHead := job.publication, boundChecks := job.checks)))
    else job
  }

  function ForgetChecks(receipt: Option<Receipt>): Option<Receipt> {
    match receipt case None => None case Some(r) => Some(r.(boundChecks := None))
  }

  /** Drop the current observation from the job and from both receipts. */
  function ClearChecks(job: Job): Job {
    job.(checks := None, fallbackReceipt := ForgetChecks(job.fallbackReceipt), ciReceipt := ForgetChecks(job.ciReceipt))
  }

  /** Return an outdated publication to `Accepted`; the candidate and its authority survive. */
  function Invalidated(job: Job): Job {
    var cleared := ClearChecks(job);
    cleared.(phase := Accepted, publication := None, mergeIntent := None, record := None, writeIntent := None,
             ciReceipt := match cleared.ciReceipt case None => None case Some(r) => Some(r.(boundHead := None)))
  }

  function Blocking(job: Job): Job {
    if job.phase == Blocked then job else job.(phase := Blocked, resumePhase := Some(job.phase))
  }

  function Paused(job: Job): Job {
    job.(pausePhase := Some(if job.phase in {Merging, WaitingMerge} then WaitingChecks else job.phase), phase := Blocked)
  }

  /** One failed Publisher operation; the fifth parks the job. */
  function CountFailure(job: Job): Job
    requires job.retries < MAX_OPERATION_ATTEMPTS
  {
    var counted := job.(retries := job.retries + 1);
    if counted.retries < MAX_OPERATION_ATTEMPTS then counted
    else counted.(
      resumePhase := if job.phase in {Publishing, Merging, Merged} then Some(job.phase) else job.resumePhase,
      phase := PublicationPending)
  }

  /** The job itself put `source` on the remote branch. */
  predicate OwnSourceWrite(job: Job, source: Sha) {
    || job.published == Some(source)
    || (job.writeIntent.Some? && job.writeIntent.value.PublishRef? && job.writeIntent.value.head == source
        && job.publication == Some(source))
  }
}
