/** The CI Development quota: one durable allowance per window, across failed published heads. */
module CiBudget {
  import opened Common

  datatype Entry =
    | FailureEntry(head: Sha, used: nat)
    | ResumeEntry(window: nat, used: nat, failureHead: Option<Sha>)

  datatype Decision = Repair | Exhausted

  /** `Refused` stands for the error the quota raises instead of charging. */
  datatype Charge = Charged(used: nat) | AlreadyCharged(used: nat) | Refused

  function Resumes(history: seq<Entry>): seq<Entry> {
    if history == [] then []
    else Resumes(history[..|history| - 1])
         + if history[|history| - 1].ResumeEntry? then [history[|history| - 1]] else []
  }

  /** Every window before the current one was closed by one resumption, in order, with its quota used up. */
  predicate WindowsWereFull(history: seq<Entry>, window: nat, limit: nat) {
    && |Resumes(history)| + 1 == window
    && forall k :: 0 <= k < |Resumes(history)| ==>
         Resumes(history)[k].ResumeEntry? && Resumes(history)[k].window == k + 1 && Resumes(history)[k].used == limit
  }

  predicate Distinct(ids: seq<Text>) {
    forall i, j :: 0 <= i < j < |ids| ==> ids[i] != ids[j]
  }

  // ---- What one operation does ----

  /** The quota record. `charges` counts every attempt that was ever charged. */
  datatype State = State(
    window: nat, used: nat, failureHead: Option<Sha>, repairPending: bool, exhausted: bool,
    history: seq<Entry>, workIds: seq<Text>, reviewerInvocations: nat, reviewArtifacts: nat, charges: nat)

  const INITIAL := State(1, 0, None, false, false, [], [], 0, 0, 0)

  /** A failed published head is recorded once, and the quota is declared exhausted when it is full. */
  function Observed(limit: nat, s: State, head: Sha): State {
    var seen := if s.failureHead == Some(head) then s
                else s.(history := s.history + [FailureEntry(head, s.used)], failureHead := Some(head), repairPending := false);
    seen.(exhausted := s.exhausted || s.used >= limit)
  }

  predicate CanStart(limit: nat, s: State) {
    s.failureHead.Some? && !s.exhausted && s.used < limit
  }

  predicate KnownWork(s: State, workId: Option<Text>) { workId.Some? && workId.value in s.workIds }

  function ChargeOf(limit: nat, s: State, workId: Option<Text>): Charge {
    if KnownWork(s, workId) then AlreadyCharged(s.used) else if CanStart(limit, s) then Charged(s.used + 1) else Refused
  }

  function AfterCharge(limit: nat, s: State, workId: Option<Text>): State {
    if !ChargeOf(limit, s, workId).Charged? then s
    else s.(used := s.used + 1, repairPending := true, charges := s.charges + 1,
            workIds := s.workIds + if workId.Some? then [workId.value] else [])
  }

  /** The engine's gate: a quota that cannot start is checkpointed without a further check. */
  function AfterGate(limit: nat, s: State): State {
    if CanStart(limit, s) then s else s.(exhausted := true)
  }

  function Renewed(s: State): State {
    if !s.exhausted then s
    else s.(history := s.history + [ResumeEntry(s.window, s.used, s.failureHead)], window := s.window + 1,
            used := 0, workIds := [], repairPending := false, exhausted := false)
  }

  /** One step of a repair cycle. `RunScheduled` is the engine starting a scheduled repair. */
  datatype Step =
    | Fail(head: Sha) | RunScheduled(workId: Option<Text>) | Settle | ReviewerRejects | Review | Resume

  /** The quota together with whether a repair is scheduled: only a failure or a resumption schedules one. */
  datatype Cycle = Cycle(quota: State, scheduled: bool)

  function Next(limit: nat, c: Cycle, step: Step): Cycle {
    var s := c.quota;
    match step
    case Fail(head) => Cycle(Observed(limit, s, head), s.used < limit && !s.exhausted)
    case RunScheduled(workId) =>
      if !c.scheduled then c
      else if CanStart(limit, s) then Cycle(AfterCharge(limit, s, workId), false)
      else Cycle(AfterGate(limit, s), false)
    case Settle => c.(quota := if s.used > 0 then s.(repairPending := false) else s)
    case ReviewerRejects =>
      Cycle(if s.used >= limit then s.(exhausted := true) else s, s.failureHead.Some? && s.used < limit)
    case Review => c.(quota := s.(reviewerInvocations := s.reviewerInvocations + 1))
    case Resume => Cycle(Renewed(s), c.scheduled || s.exhausted)
  }

  function Fold(limit: nat, steps: seq<Step>): Cycle {
    if steps == [] then Cycle(INITIAL, false) else Next(limit, Fold(limit, steps[..|steps| - 1]), steps[|steps| - 1])
  }

  // ---- What every cycle keeps ----

  /** The checks that every operation makes before it touches the quota. */
  predicate Canonical(limit: nat, s: State) {
    && s.window >= 1 && s.used <= limit
    && (s.used > 0 ==> s.failureHead.Some?)
    && (s.repairPending ==> s.used > 0)
    && Distinct(s.workIds)
    && s.reviewArtifacts <= s.reviewerInvocations
  }

  /** Canonical, and conserved: no charge is lost or invented by any window. */
  predicate Sound(limit: nat, s: State) {
    && Canonical(limit, s)
    && (s.exhausted ==> s.used == limit)
    && WindowsWereFull(s.history, s.window, limit)
    && s.charges == (s.window - 1) * limit + s.used
  }

  lemma OneMoreEntry(history: seq<Entry>, e: Entry)
    ensures Resumes(history + [e]) == Resumes(history) + if e.ResumeEntry? then [e] else []
  {
    assert (history + [e])[..|history|] == history;
  }

  lemma ObservationIsSound(limit: nat, s: State, head: Sha)
    requires Sound(limit, s)
    ensures Sound(limit, Observed(limit, s, head))
  {
    OneMoreEntry(s.history, FailureEntry(head, s.used));
  }

  lemma ChargeIsSound(limit: nat, s: State, workId: Option<Text>)
    requires Sound(limit, s)
    ensures Sound(limit, AfterCharge(limit, s, workId))
  {
  }

  lemma RenewalKeepsWindows(limit: nat, s: State)
    requires s.used == limit && WindowsWereFull(s.history, s.window, limit)
    ensures WindowsWereFull(s.history + [ResumeEntry(s.window, s.used, s.failureHead)], s.window + 1, limit)
  {
    hide Resumes;
    var e := ResumeEntry(s.window, s.used, s.failureHead);
    OneMoreEntry(s.history, e);
    assert forall k :: 0 <= k < |Resumes(s.history)| ==> Resumes(s.history + [e])[k] == Resumes(s.history)[k];
  }

  lemma RenewalIsSound(limit: nat, s: State)
    requires limit > 0 && Sound(limit, s)
    ensures Sound(limit, Renewed(s))
  {
    hide WindowsWereFull;
    if s.exhausted {
      RenewalKeepsWindows(limit, s);
      assert s.charges == s.window * limit;
    }
  }

  /** The engine's unchecked checkpoint tells the truth exactly when a failed head was observed before. */
  lemma CheckpointTruthfulExactly(limit: nat, s: State)
    requires limit > 0 && Sound(limit, s)
    ensures Sound(limit, AfterGate(limit, s)) <==> s.failureHead.Some?
  {
  }

  predicate ScheduledRightly(c: Cycle) {
    c.scheduled || c.quota.exhausted ==> c.quota.failureHead.Some?
  }

  lemma StepIsSound(limit: nat, c: Cycle, step: Step)
    requires limit > 0 && Sound(limit, c.quota) && ScheduledRightly(c)
    ensures Sound(limit, Next(limit, c, step).quota) && ScheduledRightly(Next(limit, c, step))
  {
    match step {
      case Fail(head) => ObservationIsSound(limit, c.quota, head);
      case RunScheduled(workId) =>
        ChargeIsSound(limit, c.quota, workId);
        CheckpointTruthfulExactly(limit, c.quota);
      case Resume => RenewalIsSound(limit, c.quota);
      case _ =>
    }
  }

  /**
   * From a new quota, after any steps: the attempts that were charged are exactly the full quotas of the closed
   * windows plus what the current window used, every closed window is recorded full and in order, exhausted
   * means full, and no repair is scheduled before a failed head was observed.
   */
  lemma {:induction false} QuotaIsConserved(limit: nat, steps: seq<Step>)
    requires limit > 0
    ensures Sound(limit, Fold(limit, steps).quota) && ScheduledRightly(Fold(limit, steps))
  {
    if steps != [] {
      QuotaIsConserved(limit, steps[..|steps| - 1]);
      StepIsSound(limit, Fold(limit, steps[..|steps| - 1]), steps[|steps| - 1]);
    }
  }

  /** How many steps were explicit resumptions. */
  function CountResumes(steps: seq<Step>): nat {
    if steps == [] then 0 else CountResumes(steps[..|steps| - 1]) + if steps[|steps| - 1].Resume? then 1 else 0
  }

  lemma {:induction false} WindowsNeedResumptions(limit: nat, steps: seq<Step>)
    ensures Fold(limit, steps).quota.window <= 1 + CountResumes(steps)
  {
    if steps != [] { WindowsNeedResumptions(limit, steps[..|steps| - 1]); }
  }

  lemma QuotaBound(limit: nat, windows: nat, most: nat, used: nat)
    requires windows <= most && used <= limit
    ensures windows * limit + used <= (1 + most) * limit
  {
    assert windows * limit <= most * limit;
    assert (1 + most) * limit == limit + most * limit;
  }

  /** So no cycle ever charges more attempts than one quota for the start and one for each resumption. */
  lemma ChargesNeedResumptions(limit: nat, steps: seq<Step>)
    requires limit > 0
    ensures Fold(limit, steps).quota.charges <= (1 + CountResumes(steps)) * limit
  {
    QuotaIsConserved(limit, steps);
    WindowsNeedResumptions(limit, steps);
    var s := Fold(limit, steps).quota;
    QuotaBound(limit, s.window - 1, CountResumes(steps), s.used);
  }

  // ---- The record that is updated in place ----

  class Budget {
    const limit: nat
    const reviewRequired: bool
    var window: nat
    var used: nat
    var failureHead: Option<Sha>
    var repairPending: bool
    var exhausted: bool
    var history: seq<Entry>
    var workIds: seq<Text>
    var reviewerInvocations: nat
    var reviewArtifacts: nat
    ghost var charges: nat

    constructor (limit: nat, reviewRequired: bool)
      requires limit > 0
      ensures this.limit == limit && this.reviewRequired == reviewRequired && Valid() && View() == INITIAL
    {
      this.limit, this.reviewRequired := limit, reviewRequired;
      window, used, failureHead, repairPending, exhausted := 1, 0, None, false, false;
      history, workIds, reviewerInvocations, reviewArtifacts, charges := [], [], 0, 0, 0;
    }

    ghost function View(): State
      reads this
    {
      State(window, used, failureHead, repairPending, exhausted, history, workIds, reviewerInvocations, reviewArtifacts, charges)
    }

    ghost predicate Valid()
      reads this
    {
      limit > 0 && Sound(limit, View())
    }

    /** A failed published head is recorded once and decides whether a repair may start. */
    method ObserveFailure(head: Sha) returns (decision: Decision)
      requires Valid()
      modifies this`history, this`failureHead, this`repairPending, this`exhausted
      ensures Valid() && View() == Observed(limit, old(View()), head)
      ensures decision == if used == limit then Exhausted else Repair
      ensures exhausted == (used == limit)
    {
      ObservationIsSound(limit, View(), head);
      if failureHead != Some(head) {
        history := history + [FailureEntry(head, used)];
        failureHead := Some(head);
        repairPending := false;
      }
      if exhausted || used >= limit {
        exhausted := true;
        return Exhausted;
      }
      decision := Repair;
    }

    predicate MayStart()
      reads this
    {
      failureHead.Some? && !exhausted && used < limit
    }

    /** Charge one attempt; the same semantic work is never charged twice in a window. */
    method ChargeAttempt(workId: Option<Text>) returns (r: Charge)
      requires Valid()
      modifies this`used, this`repairPending, this`workIds, this`charges
      ensures Valid() && View() == AfterCharge(limit, old(View()), workId)
      ensures r == ChargeOf(limit, old(View()), workId)
    {
      ChargeIsSound(limit, View(), workId);
      if workId.Some? && workId.value in workIds { return AlreadyCharged(used); }
      if failureHead.None? || exhausted || used >= limit { return Refused; }
      used := used + 1;
      repairPending := true;
      charges := charges + 1;
      if workId.Some? { workIds := workIds + [workId.value]; } else { assert workIds + [] == workIds; }
      r := Charged(used);
    }

    /** Settle an attempt that left no candidate: the work was done, so nothing is refunded. */
    method SettleWithoutCandidate() returns (ok: bool)
      requires Valid()
      modifies this`repairPending
      ensures Valid() && ok == (used > 0)
      ensures View() == if ok then old(View()).(repairPending := false) else old(View())
    {
      if used == 0 { return false; }
      repairPending := false;
      ok := true;
    }

    /** A rejecting Reviewer parks the repair only when no further attempt is left. */
    method CheckpointAfterReviewerFailure() returns (parked: bool)
      requires Valid()
      modifies this`exhausted
      ensures Valid() && parked == (used == limit)
      ensures View() == if parked then old(View()).(exhausted := true) else old(View())
    {
      if used < limit { return false; }
      exhausted := true;
      parked := true;
    }

    method CountReview()
      requires Valid()
      modifies this`reviewerInvocations
      ensures Valid() && View() == old(View()).(reviewerInvocations := old(reviewerInvocations) + 1)
    {
      reviewerInvocations := reviewerInvocations + 1;
    }

    /** The engine's gate before a scheduled repair. It does not ask why the quota cannot start. */
    method StartOrCheckpoint() returns (started: bool)
      requires Valid()
      modifies this`exhausted
      ensures View() == AfterGate(limit, old(View())) && started == CanStart(limit, old(View()))
      ensures Valid() <==> failureHead.Some?
    {
      CheckpointTruthfulExactly(limit, View());
      started := MayStart();
      if !started { exhausted := true; }
    }

    /** An explicit resumption opens exactly one new window, and only for an exhausted quota. */
    method Renew() returns (renewed: bool)
      requires Valid()
      modifies this`window, this`used, this`workIds, this`repairPending, this`exhausted, this`history
      ensures Valid() && View() == Renewed(old(View()))
      ensures renewed == old(exhausted)
    {
      RenewalIsSound(limit, View());
      if !exhausted { return false; }
      history := history + [ResumeEntry(window, used, failureHead)];
      window := window + 1;
      used, workIds, repairPending, exhausted := 0, [], false, false;
      renewed := true;
    }

    /** One step of the cycle, and whether a repair is scheduled after it. */
    method Take(before: bool, step: Step) returns (scheduled: bool)
      requires Valid() && ScheduledRightly(Cycle(View(), before))
      modifies this
      ensures Valid() && Cycle(View(), scheduled) == Next(limit, Cycle(old(View()), before), step)
    {
      scheduled := before;
      match step {
        case Fail(head) =>
          scheduled := !exhausted && used < limit;
          var decision := ObserveFailure(head);
        case RunScheduled(workId) =>
          if before {
            var started := StartOrCheckpoint();
            if started { var r := ChargeAttempt(workId); }
            scheduled := false;
          }
        case Settle => var settled := SettleWithoutCandidate();
        case ReviewerRejects =>
          var parked := CheckpointAfterReviewerFailure();
          scheduled := failureHead.Some? && !parked;
        case Review => CountReview();
        case Resume =>
          var renewed := Renew();
          scheduled := before || renewed;
      }
    }
  }

  /** The record, updated step by step, is exactly the one that the steps describe. */
  method Run(limit: nat, reviewRequired: bool, steps: seq<Step>)
    returns (window: nat, used: nat, exhausted: bool, history: seq<Entry>, scheduled: bool)
    requires limit > 0
    ensures var c := Fold(limit, steps);
            && window == c.quota.window && used == c.quota.used && exhausted == c.quota.exhausted
            && history == c.quota.history && scheduled == c.scheduled
  {
    var b := new Budget(limit, reviewRequired);
    scheduled := false;
    for n := 0 to |steps|
      invariant fresh(b) && b.Valid() && b.limit == limit && Cycle(b.View(), scheduled) == Fold(limit, steps[..n])
      invariant ScheduledRightly(Cycle(b.View(), scheduled))
    {
      assert steps[..n + 1][..n] == steps[..n];
      QuotaIsConserved(limit, steps[..n + 1]);
      scheduled := b.Take(scheduled, steps[n]);
    }
    assert steps[..|steps|] == steps;
    window, used, exhausted, history := b.window, b.used, b.exhausted, b.history;
  }
}
