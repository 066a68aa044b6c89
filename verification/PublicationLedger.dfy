/**
 * The observable history of one publication: every durable save, every live read that later
 * decisions rest on, and every remote write. A crash at any point leaves a prefix of the
 * history, and the process restarts from the last saved job of that prefix.
 */
module PublicationLedger {
  import opened Common
  import opened PublicationModel

  datatype Event =
    | Began                                              // an activation started from the saved job
    | Saved(job: Job)
    | PrRead(pr: nat, live: Live)
    | PrFound(pr: nat)                                   // the readback of a write saw this open pull request
    | RequirementsRead(ok: bool)
    | Pushed(branch: Text, expected: Sha, head: Sha)
    | PrWritten(branch: Text, baseBranch: Text, baseSha: Sha, head: Sha, target: Text)
    | MergeSent(pr: nat, head: Sha, message: Text)
    | MergeReturned(pr: nat, sha: Sha)                   // the merge call reported this merged commit
    | TicketClosed                                       // the closeout after a merge succeeded

  /**
   * What a history establishes. `sent` counts merge calls since the saved merge intent appeared, and
   * `armed` collects heads that were durably in `Merging` with their own intent. The other parts belong to
   * this activation: its newest reads, the open pull request a write just found, and the merged commits
   * that were reported.
   */
  datatype Ledger = Ledger(
    durable: Job, sent: nat, armed: set<Sha>, seen: Option<(nat, Live)>, current: bool,
    found: Option<nat>, results: set<(nat, Sha)>, closed: bool)

  function Opened(job: Job): Ledger {
    Ledger(job, 0, {}, None, false, None, {}, false)
  }

  function Record(l: Ledger, e: Event): Ledger {
    match e
    case Began => l.(seen := None, current := false, found := None, results := {}, closed := false)
    case Saved(job) =>
      l.(durable := job,
         sent := if job.mergeIntent.None? then 0 else l.sent,
         armed := if job.phase == Merging && Armed(job) then l.armed + {job.publication.value} else l.armed)
    case PrRead(pr, live) =>
      l.(seen := Some((pr, live)), found := None,
         results := if live.state == MergedState && live.integrated.Some? then l.results + {(pr, live.integrated.value)}
                    else l.results)
    case PrFound(pr) => l.(found := Some(pr))
    case RequirementsRead(ok) => l.(current := ok)
    case MergeSent(_, _, _) => l.(sent := l.sent + 1)
    case MergeReturned(pr, sha) => l.(seen := None, results := l.results + {(pr, sha)})
    case TicketClosed => l.(closed := true)
    case Pushed(_, _, _) => l
    case PrWritten(_, _, _, _, _) => l
  }

  /** A saved merge intent is spent one attempt at a time, or is dropped whole. */
  predicate IntentAdvances(before: Option<MergeIntent>, after: Option<MergeIntent>) {
    match (before, after)
    case (_, None) => true
    case (None, Some(m)) => false
    case (Some(m), Some(n)) =>
      n == m || (m.attempts < MAX_MERGE_ATTEMPTS && n == m.(attempts := m.attempts + 1))
  }

  /** A new intent is saved unused, in `Merging`, for the job's own head, after a read that could be merged. */
  predicate IntentAppears(l: Ledger, job: Job) {
    && l.durable.mergeIntent.None? && job.mergeIntent.Some? && job.mergeIntent.value.attempts == 0
    && job.phase == Merging && Armed(job)
    && l.seen.Some? && job.pr == Some(l.seen.value.0) && l.seen.value.1.mergeable
  }

  /** A read that a merged pull request does not give. */
  predicate LooksOpen(live: Live) { live.mergeable || live.state in {Unstated, Open} }

  /** The saved job changes its publication or pull request, admits a write, or goes back to earlier stages. */
  predicate Moves(before: Job, after: Job) {
    || after.publication != before.publication
    || after.pr != before.pr
    || (Early(after) && !Early(before))
    || (WritePending(after) && !WritePending(before))
  }

  /** A job moves only in earlier stages, before it has a pull request, while that looks open, or to settle a write. */
  predicate MayMove(l: Ledger, job: Job) {
    || Early(l.durable)
    || l.durable.pr.None?
    || (l.seen.Some? && l.durable.pr == Some(l.seen.value.0) && LooksOpen(l.seen.value.1))
    || (WritePending(l.durable) && !WritePending(job) && !Early(job) && job.publication == l.durable.publication)
  }

  /** The facts that must hold, and must already be durable, when a merge is sent. */
  ghost predicate MergeGate(contract: Contract, git: Git, l: Ledger, pr: nat, head: Sha, message: Text) {
    var job := l.durable;
    && job.phase == Merging
    && job.pr == Some(pr)
    && job.publication == Some(head)
    && IntentMatches(contract, job)
    && message == job.message
    && ChecksAllow(job, pr, head)
    && AuthorityNamesCandidate(git, job)
    && IntegrationValid(git, job)
    && git.tree(PublicationCandidate(job)) == git.tree(head)
    && l.current
    && l.seen.Some? && l.seen.value.0 == pr
    && var live := l.seen.value.1;
    && live.head == head
    && live.baseBranch == contract.baseBranch
    && live.baseSha == PublicationBase(job)
    && live.mergeable
    && job.record == Some(MergeRecord(
         job.authority, pr, PublicationBase(job), job.candidate, git.tree(job.candidate), head,
         job.checks.value, live))
  }

  /** A ticket completes on a live MERGED read of its own publication whose closeout succeeded. */
  ghost predicate CompletionGate(contract: Contract, l: Ledger, job: Job) {
    && l.durable.phase == Merged
    && l.closed
    && l.seen.Some?
    && job.pr == Some(l.seen.value.0)
    && var live := l.seen.value.1;
    && live.state == MergedState
    && live.baseBranch == contract.baseBranch
    && job.publication == Some(live.head)
    && job.integrated.Some? && live.integrated == job.integrated
    && live.headTree == live.integratedTree
    && live.integratedMessage == job.message
    && live.integratedParents == [PublicationBase(job)]
    && l.durable.integrated == job.integrated
    && l.durable.publication == job.publication
    && l.durable.record.Some? && job.record == l.durable.record
  }

  /** Whether the protocol admits event `e` after a history that established `l`. */
  ghost predicate Admits(contract: Contract, git: Git, l: Ledger, e: Event) {
    match e
    case Saved(job) =>
      && JobInv(job)
      && l.durable.phase != Completed
      && (IntentAdvances(l.durable.mergeIntent, job.mergeIntent) || IntentAppears(l, job))
      && (Moves(l.durable, job) ==> MayMove(l, job))
      && (job.pr != l.durable.pr ==> job.pr.Some? && l.found == job.pr)
      && (job.integrated.Some? && job.integrated != l.durable.integrated ==>
            && Armed(l.durable) && l.durable.phase == Merging && job.publication == l.durable.publication
            && job.pr.Some? && job.pr == l.durable.pr && (job.pr.value, job.integrated.value) in l.results
            && !Early(job) && !WritePending(job))
      && (job.phase == Completed ==> CompletionGate(contract, l, job))
    case Pushed(branch, expected, head) =>
      && branch == contract.branch
      && l.durable.publication == Some(head)
      && l.durable.writeIntent == Some(PublishRef(branch, expected, head))
    case PrWritten(branch, baseBranch, baseSha, head, target) =>
      && branch == contract.branch && baseBranch == contract.baseBranch
      && l.durable.publication == Some(head)
      && l.durable.writeIntent.Some? && l.durable.writeIntent.value.EnsurePr?
      && var w := l.durable.writeIntent.value;
      && w.branch == branch && w.baseBranch == baseBranch && w.baseSha == baseSha && w.head == head
      && w.narrative.Some? && w.narrative.value.target == target
    case MergeSent(pr, head, message) =>
      && MergeGate(contract, git, l, pr, head, message)
      && l.sent < l.durable.mergeIntent.value.attempts
    case Began => true
    case PrRead(_, _) => true
    case PrFound(_) => true
    case MergeReturned(_, _) => true
    case RequirementsRead(_) => true
    case TicketClosed => true
  }

  /** The ledger reached by a whole history. */
  function Replay(start: Job, h: seq<Event>): Ledger {
    if h == [] then Opened(start) else Record(Replay(start, h[..|h| - 1]), h[|h| - 1])
  }

  ghost predicate Legal(contract: Contract, git: Git, start: Job, h: seq<Event>) {
    forall i :: 0 <= i < |h| ==> Admits(contract, git, Replay(start, h[..i]), h[i])
  }

  /** A job that has not been sent anywhere yet: nothing merged, no merge intent. */
  predicate Untouched(job: Job) {
    JobInv(job) && job.mergeIntent.None? && job.record.None? && job.integrated.None? && job.phase != Completed
  }

  // ---- Histories grow and are cut ----

  lemma Extend(contract: Contract, git: Git, start: Job, h: seq<Event>, e: Event)
    requires Legal(contract, git, start, h)
    requires Admits(contract, git, Replay(start, h), e)
    ensures Legal(contract, git, start, h + [e])
    ensures Replay(start, h + [e]) == Record(Replay(start, h), e)
  {
    var longer := h + [e];
    assert longer[..|longer| - 1] == h;
    forall i | 0 <= i < |longer| ensures Admits(contract, git, Replay(start, longer[..i]), longer[i]) {
      assert longer[..i] == h[..i];
      assert i == |h| ==> h[..i] == h;
    }
  }

  /** Whatever a crash leaves behind is itself a history the protocol admits. */
  lemma CrashLeavesLegalHistory(contract: Contract, git: Git, start: Job, h: seq<Event>, cut: nat)
    requires Legal(contract, git, start, h) && cut <= |h|
    ensures Legal(contract, git, start, h[..cut])
  {
    forall i | 0 <= i < cut ensures Admits(contract, git, Replay(start, h[..cut][..i]), h[..cut][i]) {
      assert h[..cut][..i] == h[..i];
    }
  }

  // ---- What every legal history establishes ----

  predicate LedgerInv(l: Ledger) {
    && JobInv(l.durable)
    && (l.durable.mergeIntent.None? ==> l.sent == 0)
    && (l.durable.mergeIntent.Some? ==> l.sent <= l.durable.mergeIntent.value.attempts)
    && (l.durable.mergeIntent.Some? ==> l.durable.mergeIntent.value.head in l.armed)
    && (l.durable.phase == Completed ==> l.durable.integrated.Some? && l.durable.record.Some?)
  }

  lemma {:induction false} LegalKeepsInvariant(contract: Contract, git: Git, start: Job, h: seq<Event>)
    requires Untouched(start)
    requires Legal(contract, git, start, h)
    ensures LedgerInv(Replay(start, h))
  {
    if h == [] {
    } else {
      var before := h[..|h| - 1];
      CrashLeavesLegalHistory(contract, git, start, h, |before|);
      LegalKeepsInvariant(contract, git, start, before);
      var l := Replay(start, before);
      assert Admits(contract, git, l, h[|h| - 1]);
    }
  }

  /** The job that a restart would read at position `i`. */
  function DurableAt(start: Job, h: seq<Event>, i: nat): Job
    requires i <= |h|
  {
    Replay(start, h[..i]).durable
  }

  /** Every remote write was announced by a durable intent for that same write. */
  lemma WritesFollowDurableIntents(contract: Contract, git: Git, start: Job, h: seq<Event>, i: nat)
    requires Untouched(start)
    requires Legal(contract, git, start, h) && i < |h|
    ensures h[i].Pushed? ==>
              DurableAt(start, h, i).writeIntent == Some(PublishRef(h[i].branch, h[i].expected, h[i].head))
    ensures h[i].PrWritten? ==>
              exists n: Narrative :: n.target == h[i].target
                && DurableAt(start, h, i).writeIntent
                     == Some(EnsurePr(h[i].branch, h[i].baseBranch, h[i].baseSha, h[i].head, Some(n)))
    ensures h[i].MergeSent? ==>
              var saved := DurableAt(start, h, i);
              && Armed(saved) && saved.mergeIntent.value.head == h[i].head
              && 1 <= saved.mergeIntent.value.attempts <= MAX_MERGE_ATTEMPTS
  {
    assert Admits(contract, git, Replay(start, h[..i]), h[i]);
    CrashLeavesLegalHistory(contract, git, start, h, i);
    LegalKeepsInvariant(contract, git, start, h[..i]);
    if h[i].PrWritten? {
      var n := DurableAt(start, h, i).writeIntent.value.narrative.value;
      assert n.target == h[i].target;
    }
  }

  function MergeCalls(h: seq<Event>): nat {
    if h == [] then 0 else MergeCalls(h[..|h| - 1]) + (if h[|h| - 1].MergeSent? then 1 else 0)
  }

  /** No save strictly inside the stretch drops the merge intent. */
  predicate IntentPersists(h: seq<Event>, i: nat, j: nat)
    requires i <= j <= |h|
  {
    forall k :: i <= k < j && h[k].Saved? ==> h[k].job.mergeIntent.Some?
  }

  lemma {:induction false} SentCountsTheStretch(start: Job, h: seq<Event>, i: nat, j: nat)
    requires i <= j <= |h| && IntentPersists(h, i, j)
    ensures Replay(start, h[..j]).sent == Replay(start, h[..i]).sent + MergeCalls(h[i..j])
  {
    if i < j {
      SentCountsTheStretch(start, h, i, j - 1);
      assert h[..j][..j - 1] == h[..j - 1];
      assert h[i..j][..j - 1 - i] == h[i..j - 1];
    } else {
      assert h[i..j] == [];
    }
  }

  /** However often the process dies and restarts, one merge intent sends at most three merges. */
  lemma AtMostThreeMergesPerIntent(contract: Contract, git: Git, start: Job, h: seq<Event>, i: nat, j: nat)
    requires Untouched(start)
    requires Legal(contract, git, start, h)
    requires i <= j <= |h| && IntentPersists(h, i, j)
    ensures MergeCalls(h[i..j]) <= MAX_MERGE_ATTEMPTS
  {
    SentCountsTheStretch(start, h, i, j);
    CrashLeavesLegalHistory(contract, git, start, h, j);
    LegalKeepsInvariant(contract, git, start, h[..j]);
  }

  /** `head` was durably in `Merging`, with a merge intent of its own, somewhere in the history. */
  predicate WasArmed(h: seq<Event>, head: Sha) {
    exists k :: 0 <= k < |h| && h[k].Saved? && h[k].job.phase == Merging
      && Armed(h[k].job) && h[k].job.publication == Some(head)
  }

  lemma {:induction false} ArmedHeadsWereSaved(start: Job, h: seq<Event>, head: Sha)
    requires head in Replay(start, h).armed
    ensures WasArmed(h, head)
  {
    var before, e := h[..|h| - 1], h[|h| - 1];
    if e.Saved? && e.job.phase == Merging && Armed(e.job) && e.job.publication == Some(head) {
    } else {
      ArmedHeadsWereSaved(start, before, head);
      var k :| 0 <= k < |before| && before[k].Saved? && before[k].job.phase == Merging
        && Armed(before[k].job) && before[k].job.publication == Some(head);
      assert h[k] == before[k];
    }
  }

  /**
   * Whatever the remote says: a completed job was read live as merged with its own head, its closeout
   * succeeded, and its saved merge intent is for a head that had been durably armed before. So a job whose
   * intent names its publication completes for an armed head only.
   */
  lemma CompletionWasArmed(contract: Contract, git: Git, start: Job, h: seq<Event>, i: nat)
    requires Untouched(start)
    requires Legal(contract, git, start, h)
    requires i < |h| && h[i].Saved? && h[i].job.phase == Completed
    ensures CompletionGate(contract, Replay(start, h[..i]), h[i].job)
    ensures h[i].job.mergeIntent.Some? && WasArmed(h[..i], h[i].job.mergeIntent.value.head)
    ensures Armed(h[i].job) ==> WasArmed(h[..i], h[i].job.publication.value)
  {
    assert Admits(contract, git, Replay(start, h[..i]), h[i]);
    CrashLeavesLegalHistory(contract, git, start, h, i);
    LegalKeepsInvariant(contract, git, start, h[..i]);
    ArmedHeadsWereSaved(start, h[..i], h[i].job.mergeIntent.value.head);
  }

  lemma {:induction false} WithoutArmingNothingIntegrates(contract: Contract, git: Git, start: Job, h: seq<Event>)
    requires Untouched(start)
    requires Legal(contract, git, start, h)
    requires forall k :: 0 <= k < |h| && h[k].Saved? ==> h[k].job.phase != Merging
    ensures Replay(start, h).durable.integrated.None? && Replay(start, h).durable.mergeIntent.None?
  {
    if h != [] {
      var before := h[..|h| - 1];
      CrashLeavesLegalHistory(contract, git, start, h, |before|);
      WithoutArmingNothingIntegrates(contract, git, start, before);
      assert Admits(contract, git, Replay(start, before), h[|h| - 1]);
    }
  }

  /** No merge is ever sent for another head, other checks or another authority than those saved. */
  lemma MergesPassTheGate(contract: Contract, git: Git, start: Job, h: seq<Event>, i: nat)
    requires Untouched(start)
    requires Legal(contract, git, start, h)
    requires i < |h| && h[i].MergeSent?
    ensures MergeGate(contract, git, Replay(start, h[..i]), h[i].pr, h[i].head, h[i].message)
    ensures WasArmed(h[..i], h[i].head)
  {
    assert Admits(contract, git, Replay(start, h[..i]), h[i]);
    CrashLeavesLegalHistory(contract, git, start, h, i);
    LegalKeepsInvariant(contract, git, start, h[..i]);
    ArmedHeadsWereSaved(start, h[..i], h[i].head);
  }
}
