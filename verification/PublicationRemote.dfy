/**
 * The remote side of a history: when a pull request was merged, by whomever, and what truthful reads then
 * show. A merge is final, and a merged pull request is not mergeable.
 */
module PublicationRemote {
  import opened Common
  import opened PublicationModel
  import opened PublicationLedger

  /** A pull request was merged when `at` events of the history had happened. */
  datatype RemoteMerge = RemoteMerge(at: nat, head: Sha, sha: Sha)

  predicate MergedBefore(merges: map<nat, RemoteMerge>, pr: nat, i: nat) {
    pr in merges && merges[pr].at <= i
  }

  /** What the remote may tell at position `i`. */
  predicate Tells(merges: map<nat, RemoteMerge>, i: nat, e: Event) {
    match e
    case PrRead(pr, live) =>
      && (live.mergeable ==> live.state == Open)
      && (if MergedBefore(merges, pr, i)
          then live.state == MergedState && live.head == merges[pr].head && live.integrated == Some(merges[pr].sha)
          else live.state != MergedState)
    case PrFound(pr) => !MergedBefore(merges, pr, i)
    case MergeReturned(pr, sha) => MergedBefore(merges, pr, i) && sha == merges[pr].sha
    case _ => true
  }

  predicate Truthful(merges: map<nat, RemoteMerge>, h: seq<Event>) {
    forall i :: 0 <= i < |h| ==> Tells(merges, i, h[i])
  }

  lemma TruthfulPrefix(merges: map<nat, RemoteMerge>, h: seq<Event>, n: nat)
    requires Truthful(merges, h) && n <= |h|
    ensures Truthful(merges, h[..n])
  {
    forall i | 0 <= i < n ensures Tells(merges, i, h[..n][i]) {
      assert h[..n][i] == h[i];
    }
  }

  // ---- A recorded merge fixes the publication ----

  predicate SeenMerged(l: Ledger, pr: nat) {
    l.seen.Some? && l.seen.value.0 == pr ==> !LooksOpen(l.seen.value.1)
  }

  predicate RecordedInv(merges: map<nat, RemoteMerge>, n: nat, l: Ledger) {
    && (forall r :: r in l.results ==> MergedBefore(merges, r.0, n) && r.1 == merges[r.0].sha && SeenMerged(l, r.0))
    && (l.durable.integrated.Some? ==>
          && l.durable.pr.Some? && MergedBefore(merges, l.durable.pr.value, n)
          && l.durable.integrated.value == merges[l.durable.pr.value].sha
          && l.durable.publication.Some? && l.durable.publication.value in l.armed
          && !Early(l.durable) && !WritePending(l.durable)
          && SeenMerged(l, l.durable.pr.value))
  }

  lemma EventKeepsRecordedInv(contract: Contract, git: Git, merges: map<nat, RemoteMerge>, n: nat, l: Ledger, e: Event)
    requires LedgerInv(l) && RecordedInv(merges, n, l)
    requires Admits(contract, git, l, e) && Tells(merges, n, e)
    ensures RecordedInv(merges, n + 1, Record(l, e))
  {
    hide CompletionGate;
    hide MergeGate;
  }

  lemma {:induction false} TruthKeepsRecordedInv(
    contract: Contract, git: Git, start: Job, h: seq<Event>, merges: map<nat, RemoteMerge>)
    requires Untouched(start)
    requires Legal(contract, git, start, h) && Truthful(merges, h)
    ensures RecordedInv(merges, |h|, Replay(start, h))
  {
    if h != [] {
      var before := h[..|h| - 1];
      CrashLeavesLegalHistory(contract, git, start, h, |before|);
      TruthfulPrefix(merges, h, |before|);
      TruthKeepsRecordedInv(contract, git, start, before, merges);
      LegalKeepsInvariant(contract, git, start, before);
      assert Admits(contract, git, Replay(start, before), h[|h| - 1]);
      EventKeepsRecordedInv(contract, git, merges, |before|, Replay(start, before), h[|h| - 1]);
    }
  }

  /** On a truthful remote every completed job had durably armed exactly the head it completes for. */
  lemma CompletedHeadsWereArmed(
    contract: Contract, git: Git, start: Job, h: seq<Event>, merges: map<nat, RemoteMerge>, i: nat)
    requires Untouched(start)
    requires Legal(contract, git, start, h) && Truthful(merges, h)
    requires i < |h| && h[i].Saved? && h[i].job.phase == Completed
    ensures WasArmed(h[..i], h[i].job.publication.value)
    ensures MergedBefore(merges, h[i].job.pr.value, i) && h[i].job.publication == Some(merges[h[i].job.pr.value].head)
  {
    CrashLeavesLegalHistory(contract, git, start, h, i);
    TruthfulPrefix(merges, h, i);
    TruthKeepsRecordedInv(contract, git, start, h[..i], merges);
    CompletionWasArmed(contract, git, start, h, i);
    assert Admits(contract, git, Replay(start, h[..i]), h[i]);
    ArmedHeadsWereSaved(start, h[..i], h[i].job.publication.value);
    SeenWasRead(start, h, i, merges);
  }

  /** The newest read of an activation is an event of the history. */
  lemma {:induction false} SeenWasRead(start: Job, h: seq<Event>, i: nat, merges: map<nat, RemoteMerge>)
    requires i <= |h| && Truthful(merges, h)
    ensures var l := Replay(start, h[..i]);
            l.seen.Some? && l.seen.value.1.state == MergedState ==>
              MergedBefore(merges, l.seen.value.0, i) && l.seen.value.1.head == merges[l.seen.value.0].head
  {
    if i > 0 {
      SeenWasRead(start, h, i - 1, merges);
      assert h[..i][..i - 1] == h[..i - 1];
      assert Tells(merges, i - 1, h[i - 1]);
    }
  }

  // ---- A foreign merge ----

  predicate NoneMerging(h: seq<Event>) {
    forall k :: 0 <= k < |h| && h[k].Saved? ==> h[k].job.phase != Merging
  }

  /** After a read that shows `pr` merged before anything was armed, nothing is ever recorded for it. */
  predicate ForeignInv(pr: nat, l: Ledger) {
    && (l.durable.pr == Some(pr) ==> l.durable.mergeIntent.None? && l.durable.integrated.None?)
    && SeenMerged(l, pr)
    && l.found != Some(pr)
  }

  lemma EventKeepsForeignInv(
    contract: Contract, git: Git, merges: map<nat, RemoteMerge>, n: nat, l: Ledger, e: Event, pr: nat)
    requires LedgerInv(l) && ForeignInv(pr, l) && MergedBefore(merges, pr, n)
    requires Admits(contract, git, l, e) && Tells(merges, n, e)
    ensures ForeignInv(pr, Record(l, e))
  {
    hide CompletionGate;
    hide MergeGate;
  }

  lemma {:induction false} ForeignMergeStaysOut(
    contract: Contract, git: Git, start: Job, h: seq<Event>, merges: map<nat, RemoteMerge>, pr: nat, j: nat)
    requires Untouched(start)
    requires Legal(contract, git, start, h) && Truthful(merges, h)
    requires j < |h| && h[j].PrRead? && h[j].pr == pr && h[j].live.state == MergedState
    requires NoneMerging(h[..j])
    ensures ForeignInv(pr, Replay(start, h))
    decreases |h|
  {
    hide Admits;
    hide LedgerInv;
    var before := h[..|h| - 1];
    CrashLeavesLegalHistory(contract, git, start, h, |before|);
    assert Tells(merges, |before|, h[|before|]) && Tells(merges, j, h[j]);
    assert Admits(contract, git, Replay(start, before), h[|before|]);
    if j == |before| {
      WithoutArmingNothingIntegrates(contract, git, start, before);
    } else {
      TruthfulPrefix(merges, h, |before|);
      assert before[..j] == h[..j];
      ForeignMergeStaysOut(contract, git, start, before, merges, pr, j);
      LegalKeepsInvariant(contract, git, start, before);
      EventKeepsForeignInv(contract, git, merges, |before|, Replay(start, before), h[|before|], pr);
    }
  }

  /**
   * A pull request that is read as merged before the job was ever saved in `Merging` never completes the
   * job, whoever merged it and whatever happens later.
   */
  lemma OutsidersNeverComplete(
    contract: Contract, git: Git, start: Job, h: seq<Event>, merges: map<nat, RemoteMerge>, pr: nat, j: nat, i: nat)
    requires Untouched(start)
    requires Legal(contract, git, start, h) && Truthful(merges, h)
    requires j < i < |h| && h[j].PrRead? && h[j].pr == pr && h[j].live.state == MergedState
    requires NoneMerging(h[..j])
    requires h[i].Saved? && h[i].job.phase == Completed
    ensures h[i].job.pr != Some(pr)
  {
    CrashLeavesLegalHistory(contract, git, start, h, i);
    TruthfulPrefix(merges, h, i);
    assert h[..i][..j] == h[..j];
    ForeignMergeStaysOut(contract, git, start, h[..i], merges, pr, j);
    assert Admits(contract, git, Replay(start, h[..i]), h[i]);
  }

  /** The history looks at the pull request at position `j`. */
  predicate LooksAt(h: seq<Event>, j: nat, pr: nat) {
    j < |h| && ((h[j].PrRead? && h[j].pr == pr) || (h[j].PrFound? && h[j].pr == pr))
  }

  /** A merge that precedes the first save in `Merging` completes a job only if nobody looked in between. */
  lemma ForeignMergeCompletesOnlyUnseen(
    contract: Contract, git: Git, start: Job, h: seq<Event>, merges: map<nat, RemoteMerge>, pr: nat, k: nat, i: nat)
    requires Untouched(start)
    requires Legal(contract, git, start, h) && Truthful(merges, h)
    requires pr in merges && merges[pr].at <= k <= i < |h| && NoneMerging(h[..k])
    requires h[i].Saved? && h[i].job.phase == Completed && h[i].job.pr == Some(pr)
    ensures forall j :: merges[pr].at <= j < k ==> !LooksAt(h, j, pr)
  {
    forall j | merges[pr].at <= j < k ensures !LooksAt(h, j, pr) {
      assert Tells(merges, j, h[j]);
      if LooksAt(h, j, pr) {
        forall n | 0 <= n < j && h[..j][n].Saved? ensures h[..j][n].job.phase != Merging {
          assert h[..j][n] == h[..k][n];
        }
        OutsidersNeverComplete(contract, git, start, h, merges, pr, j, i);
      }
    }
  }

  /**
   * And that is exactly the condition: a history cannot tell its own merge from one that happened at an
   * earlier moment `a`, if and only if it never looked at the pull request in between.
   */
  lemma MergeMayBeEarlier(merges: map<nat, RemoteMerge>, h: seq<Event>, pr: nat, a: nat)
    requires Truthful(merges, h)
    requires pr in merges && a <= merges[pr].at
    ensures Truthful(merges[pr := merges[pr].(at := a)], h)
            <==> forall j :: a <= j < merges[pr].at ==> !LooksAt(h, j, pr)
  {
    var earlier := merges[pr := merges[pr].(at := a)];
    if forall j :: a <= j < merges[pr].at ==> !LooksAt(h, j, pr) {
      forall j | 0 <= j < |h| ensures Tells(earlier, j, h[j]) {
        assert Tells(merges, j, h[j]);
        assert a <= j < merges[pr].at ==> !LooksAt(h, j, pr);
      }
    } else {
      var j :| a <= j < merges[pr].at && LooksAt(h, j, pr);
      assert Tells(merges, j, h[j]);
      assert !Tells(earlier, j, h[j]);
    }
  }
}
