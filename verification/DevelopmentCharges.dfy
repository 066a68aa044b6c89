/**
 * What one Development costs: the engine's gate, the single save that allocates an attempt, its
 * closeouts, the refund of an attempt whose credential was never available, and the invalidation of
 * an attempt whose requirements changed. Each step is the stretch of code between two saves, so a
 * process that dies loses nothing but the stretch it was in.
 */
module DevelopmentCharges {
  import opened Common

  datatype Kind = Ordinary | CiRepair | Integration

  /** A semantic attempt is named by a fingerprint of these facts. Its kind is not one of them. */
  datatype Identity = Identity(boundary: nat, ordinal: nat, window: nat)

  /** A closed attempt: its name, and the kind under which it ran. */
  datatype Closed = Closed(name: Identity, kind: Kind)

  datatype Phase = Developing | Committing | CandidateReady | Blocked | Escalating

  /** `Refused` stands for the error that is raised when a pending attempt is bound to other work. */
  datatype Allocation = Allocated | Resumed | NoBudget | Refused

  datatype Limits = Limits(ordinary: nat, ci: nat, integration: nat)

  /** The last four fields only keep the books: how often a charge was not the attempt's own. */
  datatype State = State(
    phase: Phase, modificationAttempts: nat, pendingAttempt: Option<nat>, pendingKind: Kind, nextKind: Kind,
    semantic: Option<Identity>, ordinaryUsed: nat, ciUsed: nat, integrationIds: seq<Identity>, closed: seq<Closed>,
    invalidated: seq<Closed>, settled: nat, unpaid: nat, crossed: seq<Kind>)

  const INITIAL := State(Developing, 0, None, Ordinary, Ordinary, None, 0, 0, [], [], [], 0, 0, [])

  // ---- What one step does ----

  predicate MayStart(limits: Limits, s: State) {
    match s.nextKind
    case Ordinary => s.ordinaryUsed < limits.ordinary
    case CiRepair => s.ciUsed < limits.ci
    case Integration => |s.integrationIds| < limits.integration
  }

  function AllocationOf(limits: Limits, s: State, boundary: nat, window: nat): Allocation {
    if s.semantic.Some? then
      if s.semantic.value.boundary == boundary && s.semantic.value.window == window then Resumed else Refused
    else if !MayStart(limits, s) then NoBudget
    else if s.pendingAttempt.Some? then Resumed
    else Allocated
  }

  /** A new semantic attempt. Only an attempt that was not pending before costs anything, and an integration
      attempt only under a name that was not charged before. */
  function Begun(s: State, name: Identity): State {
    var due := s.pendingAttempt.None?;
    s.(pendingAttempt := Some(s.modificationAttempts + 1), pendingKind := s.nextKind, semantic := Some(name),
       ordinaryUsed := s.ordinaryUsed + (if due && s.nextKind == Ordinary then 1 else 0),
       ciUsed := s.ciUsed + (if due && s.nextKind == CiRepair then 1 else 0),
       integrationIds := if s.nextKind == Integration && name !in s.integrationIds then s.integrationIds + [name] else s.integrationIds,
       unpaid := s.unpaid + (if s.nextKind == Integration && name in s.integrationIds then 1 else 0))
  }

  function NameOf(s: State, boundary: nat, window: nat): Identity { Identity(boundary, s.modificationAttempts + 1, window) }

  /** A pending semantic attempt is resumed or refused; a new one needs budget. */
  function AfterAllocation(limits: Limits, s: State, boundary: nat, window: nat): State {
    if s.semantic.Some? then s
    else if !MayStart(limits, s) then s.(phase := if s.nextKind == Integration then Blocked else Escalating)
    else Begun(s, NameOf(s, boundary, window))
  }

  /** The shared end of a closeout: the semantic attempt is closed and nothing stays pending. */
  function Settled(s: State, attempts: nat, next: Kind, after: Phase): State
    requires s.semantic.Some?
  {
    s.(closed := s.closed + [Closed(s.semantic.value, s.pendingKind)], semantic := None, pendingAttempt := None,
       modificationAttempts := attempts, nextKind := next, phase := after)
  }

  function AfterCandidate(s: State): State {
    if s.semantic.None? || s.pendingAttempt.None? then s
    else Settled(s, s.pendingAttempt.value, Ordinary, CandidateReady)
  }

  /** Only a CI repair that changed no code moves its attempt number on. */
  function AfterNoCode(s: State): State {
    if s.semantic.None? || s.pendingAttempt.None? then s
    else Settled(s, if s.pendingKind == CiRepair then s.pendingAttempt.value else s.modificationAttempts, s.nextKind, Blocked)
  }

  function AfterIntegrityFailure(s: State, restored: bool): State {
    if !restored then s.(phase := Escalating)
    else if s.semantic.None? || s.pendingAttempt.None? then s
    else Settled(s, s.pendingAttempt.value, s.nextKind, Developing)
  }

  function IndexOf(ids: seq<Identity>, name: Identity): (k: nat)
    requires name in ids
    ensures k < |ids| && ids[k] == name
  {
    if ids[0] == name then 0 else 1 + IndexOf(ids[1..], name)
  }

  function Without(ids: seq<Identity>, name: Identity): seq<Identity>
    requires name in ids
  {
    ids[..IndexOf(ids, name)] + ids[IndexOf(ids, name) + 1..]
  }

  /**
   * No worker could start because the credential was not available. A charged integration name is given back
   * first, whoever pends under it; else an ordinary attempt gives its charge back and a CI repair is settled.
   */
  function AfterRefund(s: State, resuming: bool): State {
    if s.semantic.None? || resuming then s
    else
      var released := s.(pendingAttempt := None, semantic := None);
      if s.semantic.value in s.integrationIds then
        released.(integrationIds := Without(s.integrationIds, s.semantic.value),
                  crossed := if s.pendingKind == Integration then s.crossed else s.crossed + [s.pendingKind])
      else if s.pendingKind == CiRepair then released.(settled := s.settled + 1)
      else released.(ordinaryUsed := if s.ordinaryUsed > 0 then s.ordinaryUsed - 1 else 0)
  }

  /** Changed requirements close the semantic attempt and park the job, but keep the charged attempt pending. */
  function AfterInvalidation(s: State): State {
    var closing := if s.semantic.Some? then [Closed(s.semantic.value, s.pendingKind)] else [];
    s.(closed := s.closed + closing, invalidated := s.invalidated + closing, semantic := None, phase := Blocked)
  }

  /** Later stages choose the kind of the next attempt while none is pending, and reopen a parked job. */
  function AfterReopening(s: State, kind: Kind): State {
    s.(phase := Developing, nextKind := if s.pendingAttempt.None? then kind else s.nextKind)
  }

  datatype Step =
    | Allocate(boundary: nat, window: nat) | Return | Candidate | NoCode | Integrity(restored: bool)
    | Refund(resuming: bool) | Stale | Reopen(kind: Kind)

  predicate Enabled(s: State, step: Step) {
    match step
    case Allocate(_, _) => s.phase == Developing
    case Return => s.phase == Developing && s.semantic.Some?
    case Candidate => s.phase == Committing
    case NoCode => s.phase == Committing
    case Integrity(_) => s.phase == Committing
    case Refund(_) => s.phase == Developing
    case Stale => s.phase in {Developing, Committing}
    case Reopen(_) => true
  }

  function Next(limits: Limits, s: State, step: Step): State {
    if !Enabled(s, step) then s
    else match step
      case Allocate(boundary, window) => AfterAllocation(limits, s, boundary, window)
      case Return => s.(phase := Committing)
      case Candidate => AfterCandidate(s)
      case NoCode => AfterNoCode(s)
      case Integrity(restored) => AfterIntegrityFailure(s, restored)
      case Refund(resuming) => AfterRefund(s, resuming)
      case Stale => AfterInvalidation(s)
      case Reopen(kind) => AfterReopening(s, kind)
  }

  function Fold(limits: Limits, steps: seq<Step>): State {
    if steps == [] then INITIAL else Next(limits, Fold(limits, steps[..|steps| - 1]), steps[|steps| - 1])
  }

  // ---- What every run keeps ----

  function Count(closed: seq<Closed>, kind: Kind): nat {
    if closed == [] then 0
    else Count(closed[..|closed| - 1], kind) + if closed[|closed| - 1].kind == kind then 1 else 0
  }

  lemma CountOneMore(closed: seq<Closed>, c: Closed)
    ensures forall kind :: Count(closed + [c], kind) == Count(closed, kind) + if c.kind == kind then 1 else 0
  {
    assert (closed + [c])[..|closed|] == closed;
  }

  function Times(kinds: seq<Kind>, kind: Kind): nat { multiset(kinds)[kind] }

  function Pending(s: State, kind: Kind): nat {
    if s.pendingAttempt.Some? && s.pendingKind == kind then 1 else 0
  }

  /**
   * The books of all three kinds balance: every charge is a closed attempt, a pending one, or a counted exception.
   * An exception is an attempt that an invalidation closed before its end, a CI repair that never started, a retry
   * under a charged integration name, and a refund that returned the integration charge of another attempt.
   */
  predicate Balanced(s: State) {
    && s.ordinaryUsed + Count(s.invalidated, Ordinary) == Count(s.closed, Ordinary) + Pending(s, Ordinary) + Times(s.crossed, Ordinary)
    && s.ciUsed + Count(s.invalidated, CiRepair) ==
         Count(s.closed, CiRepair) + Pending(s, CiRepair) + s.settled + Times(s.crossed, CiRepair)
    && |s.integrationIds| + s.unpaid + |s.crossed| ==
         Count(s.closed, Integration) + (if s.semantic.Some? && s.pendingKind == Integration then 1 else 0)
  }

  predicate Distinct(ids: seq<Identity>) { forall i, j :: 0 <= i < j < |ids| ==> ids[i] != ids[j] }

  predicate Sound(s: State) {
    && Balanced(s)
    && Distinct(s.integrationIds)
    && Count(s.invalidated, Ordinary) <= Count(s.closed, Ordinary)
    && (s.pendingAttempt.Some? ==> s.pendingAttempt.value == s.modificationAttempts + 1 && s.pendingKind == s.nextKind)
    && (s.semantic.Some? ==> s.pendingAttempt.Some?)
    && (s.semantic.Some? && s.pendingKind == Integration ==> s.semantic.value in s.integrationIds)
  }

  lemma InitialIsSound()
    ensures Sound(INITIAL)
  {
  }

  lemma AllocationIsSound(limits: Limits, s: State, boundary: nat, window: nat)
    requires Sound(s)
    ensures Sound(AfterAllocation(limits, s, boundary, window))
  {
  }

  lemma SettlingIsSound(s: State, attempts: nat, next: Kind, after: Phase)
    requires Sound(s) && s.semantic.Some?
    ensures Sound(Settled(s, attempts, next, after))
  {
    CountOneMore(s.closed, Closed(s.semantic.value, s.pendingKind));
  }

  lemma RefundIsSound(s: State, resuming: bool)
    requires Sound(s)
    ensures Sound(AfterRefund(s, resuming))
  {
    hide Count;
  }

  lemma InvalidationIsSound(s: State)
    requires Sound(s)
    ensures Sound(AfterInvalidation(s))
  {
    if s.semantic.Some? {
      var c := Closed(s.semantic.value, s.pendingKind);
      CountOneMore(s.closed, c);
      CountOneMore(s.invalidated, c);
    } else {
      assert s.closed + [] == s.closed && s.invalidated + [] == s.invalidated;
    }
  }

  lemma StepIsSound(limits: Limits, s: State, step: Step)
    requires Sound(s)
    ensures Sound(Next(limits, s, step))
  {
    match step {
      case Allocate(boundary, window) => AllocationIsSound(limits, s, boundary, window);
      case Refund(resuming) => RefundIsSound(s, resuming);
      case Stale => InvalidationIsSound(s);
      case _ =>
        if s.semantic.Some? {
          SettlingIsSound(s, s.pendingAttempt.value, Ordinary, CandidateReady);
          SettlingIsSound(s, s.pendingAttempt.value, s.nextKind, Blocked);
          SettlingIsSound(s, s.modificationAttempts, s.nextKind, Blocked);
          SettlingIsSound(s, s.pendingAttempt.value, s.nextKind, Developing);
        }
    }
  }

  /** However often work is retried, resumed, refunded or invalidated, the books balance. */
  lemma {:induction false} BooksBalance(limits: Limits, steps: seq<Step>)
    ensures Sound(Fold(limits, steps))
  {
    if steps != [] {
      BooksBalance(limits, steps[..|steps| - 1]);
      StepIsSound(limits, Fold(limits, steps[..|steps| - 1]), steps[|steps| - 1]);
    }
  }

  predicate Plain(steps: seq<Step>) { forall k :: 0 <= k < |steps| ==> !steps[k].Stale? && !steps[k].Refund? }

  lemma {:induction false} PlainRunsHaveNoExceptions(limits: Limits, steps: seq<Step>)
    requires Plain(steps)
    ensures var s := Fold(limits, steps); s.invalidated == [] && s.settled == 0 && s.crossed == []
  {
    if steps != [] { PlainRunsHaveNoExceptions(limits, steps[..|steps| - 1]); }
  }

  /** While nothing is invalidated or refunded, every ordinary and CI charge is exactly one closed or pending attempt. */
  lemma PlainRunsChargeOnce(limits: Limits, steps: seq<Step>)
    requires Plain(steps)
    ensures var s := Fold(limits, steps);
            && s.ordinaryUsed == Count(s.closed, Ordinary) + Pending(s, Ordinary)
            && s.ciUsed == Count(s.closed, CiRepair) + Pending(s, CiRepair)
  {
    BooksBalance(limits, steps);
    PlainRunsHaveNoExceptions(limits, steps);
  }

  /** The counters that a caller pays with. */
  function Charges(s: State): (nat, nat, seq<Identity>) { (s.ordinaryUsed, s.ciUsed, s.integrationIds) }

  lemma RemovedAgain(ids: seq<Identity>, name: Identity)
    requires name !in ids
    ensures Without(ids + [name], name) == ids
  {
    assert (ids + [name])[IndexOf(ids + [name], name)] == name;
  }

  /** An attempt that never started costs nothing exactly if it is no CI repair and its name was not charged before. */
  lemma RefundRestoresExactly(limits: Limits, s: State, boundary: nat, window: nat)
    requires s.semantic.None? && s.pendingAttempt.None? && MayStart(limits, s)
    ensures Charges(AfterRefund(AfterAllocation(limits, s, boundary, window), false)) == Charges(s)
            <==> s.nextKind != CiRepair && NameOf(s, boundary, window) !in s.integrationIds
  {
    var pending, name := Begun(s, NameOf(s, boundary, window)), NameOf(s, boundary, window);
    if name in s.integrationIds {
      assert |Without(pending.integrationIds, name)| == |s.integrationIds| - 1;
    } else {
      RemovedAgain(s.integrationIds, name);
    }
  }

  lemma FoldOnce(limits: Limits, steps: seq<Step>, k: nat)
    requires k < |steps|
    ensures Fold(limits, steps[..k + 1]) == Next(limits, Fold(limits, steps[..k]), steps[k])
  {
    assert steps[..k + 1][..k] == steps[..k];
  }

  lemma FoldMore(limits: Limits, steps: seq<Step>, more: seq<Step>)
    requires |more| == 4
    ensures Fold(limits, steps + more) ==
              Next(limits, Next(limits, Next(limits, Next(limits, Fold(limits, steps), more[0]), more[1]), more[2]), more[3])
  {
    hide Next;
    var all, n := steps + more, |steps|;
    FoldOnce(limits, all, n); FoldOnce(limits, all, n + 1); FoldOnce(limits, all, n + 2); FoldOnce(limits, all, n + 3);
    assert all[..n] == steps && all[..n + 4] == all;
  }

  /** An integration attempt that ends without a code change. */
  const WITHOUT_CODE := [Reopen(Integration), Allocate(7, 1), Return, NoCode]

  /** What such an attempt leaves: a closed attempt, and a charge only if its name was not charged before. */
  lemma AttemptWithoutCode(limits: Limits, s: State)
    requires s.pendingAttempt.None? && s.semantic.None? && |s.integrationIds| < limits.integration
    ensures var after, name := Next(limits, Next(limits, Next(limits, Next(limits, s, WITHOUT_CODE[0]), WITHOUT_CODE[1]), WITHOUT_CODE[2]), WITHOUT_CODE[3]),
                               Identity(7, s.modificationAttempts + 1, 1);
            && after.closed == s.closed + [Closed(name, Integration)]
            && after.integrationIds == (if name in s.integrationIds then s.integrationIds else s.integrationIds + [name])
            && after.modificationAttempts == s.modificationAttempts
            && after.pendingAttempt.None? && after.semantic.None? && after.ordinaryUsed == s.ordinaryUsed
  {
    var reopened := Next(limits, s, WITHOUT_CODE[0]);
    assert reopened == s.(phase := Developing, nextKind := Integration);
    var charged := Next(limits, reopened, WITHOUT_CODE[1]);
    assert charged.semantic == Some(Identity(7, s.modificationAttempts + 1, 1)) && charged.pendingKind == Integration;
  }

  lemma FirstAttempt()
    ensures var s := Fold(Limits(1, 1, 5), WITHOUT_CODE);
            && s.closed == [Closed(Identity(7, 1, 1), Integration)] && s.integrationIds == [Identity(7, 1, 1)]
            && s.modificationAttempts == 0 && s.pendingAttempt.None? && s.semantic.None? && s.ordinaryUsed == 0
  {
    hide Next;
    AttemptWithoutCode(Limits(1, 1, 5), INITIAL);
    FoldMore(Limits(1, 1, 5), [], WITHOUT_CODE);
    assert [] + WITHOUT_CODE == WITHOUT_CODE;
  }

  /**
   * An integration attempt that changed no code and is tried again on the same boundary has the same name,
   * so the second attempt is not charged: two closed attempts, one charge.
   */
  lemma RetriedIntegrationIsUnpaid()
    ensures var s := Fold(Limits(1, 1, 5), WITHOUT_CODE + WITHOUT_CODE); |s.integrationIds| == 1 && Count(s.closed, Integration) == 2
  {
    hide Fold, Next;
    var c := Closed(Identity(7, 1, 1), Integration);
    FirstAttempt();
    AttemptWithoutCode(Limits(1, 1, 5), Fold(Limits(1, 1, 5), WITHOUT_CODE));
    FoldMore(Limits(1, 1, 5), WITHOUT_CODE, WITHOUT_CODE);
    CountOneMore([], c);
    CountOneMore([c], c);
    assert [] + [c] == [c];
  }

  /**
   * An ordinary attempt under the name of a charged integration attempt gives back the wrong charge: it stays
   * paid although it never started, and the closed integration attempt is unpaid.
   */
  lemma RefundMayCross()
    ensures var s := Fold(Limits(1, 1, 5), WITHOUT_CODE + [Reopen(Ordinary), Allocate(7, 1), Allocate(7, 1), Refund(false)]);
            && s.ordinaryUsed == 1 && Pending(s, Ordinary) == 0 && s.integrationIds == []
            && s.closed == [Closed(Identity(7, 1, 1), Integration)]
  {
    hide Fold;
    FirstAttempt();
    FoldMore(Limits(1, 1, 5), WITHOUT_CODE, [Reopen(Ordinary), Allocate(7, 1), Allocate(7, 1), Refund(false)]);
  }

  // ---- The job that is updated in place ----

  class DevelopmentJob {
    const limits: Limits
    var phase: Phase
    var modificationAttempts: nat
    var pendingAttempt: Option<nat>
    var pendingKind: Kind
    var nextKind: Kind
    var semantic: Option<Identity>          // the pending semantic attempt
    var ordinaryUsed: nat
    var ciUsed: nat
    var integrationIds: seq<Identity>       // the charged integration attempts
    var closed: seq<Closed>                 // every semantic attempt that was closed
    ghost var invalidated: seq<Closed>      // closed by an invalidation, which keeps the pending attempt
    ghost var settled: nat                  // CI attempts settled without a refund
    ghost var unpaid: nat                   // integration attempts whose name was already charged
    ghost var crossed: seq<Kind>            // attempts whose refund returned an integration charge

    constructor (limits: Limits)
      ensures this.limits == limits && Valid() && View() == INITIAL
    {
      this.limits := limits;
      phase, modificationAttempts, pendingAttempt, pendingKind, nextKind := Developing, 0, None, Ordinary, Ordinary;
      semantic, ordinaryUsed, ciUsed, integrationIds, closed := None, 0, 0, [], [];
      invalidated, settled, unpaid, crossed := [], 0, 0, [];
      new;
      hide Sound;
      InitialIsSound();
    }

    ghost function View(): State
      reads this
    {
      State(phase, modificationAttempts, pendingAttempt, pendingKind, nextKind, semantic, ordinaryUsed, ciUsed,
            integrationIds, closed, invalidated, settled, unpaid, crossed)
    }

    ghost predicate Valid()
      reads this
    {
      Sound(View())
    }

    predicate HasBudget()
      reads this
    {
      match nextKind
      case Ordinary => ordinaryUsed < limits.ordinary
      case CiRepair => ciUsed < limits.ci
      case Integration => |integrationIds| < limits.integration
    }

    /** Charge an attempt and make it pending. */
    method Begin(name: Identity)
      modifies this
      ensures View() == Begun(old(View()), name)
    {
      if nextKind == Integration {
        if name in integrationIds { unpaid := unpaid + 1; } else { integrationIds := integrationIds + [name]; }
      } else if pendingAttempt.None? {
        if nextKind == CiRepair { ciUsed := ciUsed + 1; } else { ordinaryUsed := ordinaryUsed + 1; }
      }
      pendingAttempt, pendingKind, semantic := Some(modificationAttempts + 1), nextKind, Some(name);
    }

    /** Allocate or resume one attempt. The budget is charged only when no attempt is pending. */
    method Allocate(boundary: nat, window: nat) returns (r: Allocation)
      requires Valid() && phase == Developing
      modifies this
      ensures Valid() && View() == AfterAllocation(limits, old(View()), boundary, window)
      ensures r == AllocationOf(limits, old(View()), boundary, window)
    {
      hide Sound, Begun;
      AllocationIsSound(limits, View(), boundary, window);
      if semantic.Some? {
        return if semantic.value.boundary == boundary && semantic.value.window == window then Resumed else Refused;
      }
      if !HasBudget() {
        phase := if nextKind == Integration then Blocked else Escalating;
        return NoBudget;
      }
      r := if pendingAttempt.Some? then Resumed else Allocated;
      Begin(Identity(boundary, modificationAttempts + 1, window));
    }

    method StoreResult()
      requires Valid() && phase == Developing && semantic.Some?
      modifies this`phase
      ensures Valid() && View() == old(View()).(phase := Committing)
    {
      phase := Committing;
    }

    /** The shared end of a closeout. */
    method Settle(attempts: nat, next: Kind, after: Phase)
      requires Valid() && semantic.Some?
      modifies this`closed, this`semantic, this`pendingAttempt, this`modificationAttempts, this`nextKind, this`phase
      ensures Valid() && View() == Settled(old(View()), attempts, next, after)
    {
      hide Count;
      SettlingIsSound(View(), attempts, next, after);
      closed := closed + [Closed(semantic.value, pendingKind)];
      semantic, pendingAttempt := None, None;
      modificationAttempts, nextKind, phase := attempts, next, after;
    }

    /** A candidate was committed. */
    method CloseWithCandidate() returns (ok: bool)
      requires Valid() && phase == Committing
      modifies this
      ensures Valid() && ok == old(semantic).Some? && View() == AfterCandidate(old(View()))
    {
      if semantic.None? { return false; }
      Settle(pendingAttempt.value, Ordinary, CandidateReady);
      ok := true;
    }

    /** The attempt changed no code. */
    method CloseWithoutCode() returns (ok: bool)
      requires Valid() && phase == Committing
      modifies this
      ensures Valid() && ok == old(semantic).Some? && View() == AfterNoCode(old(View()))
    {
      if semantic.None? { return false; }
      Settle(if pendingKind == CiRepair then pendingAttempt.value else modificationAttempts, nextKind, Blocked);
      ok := true;
    }

    /** The commit broke the managed checkout; a failed restoration leaves the attempt pending. */
    method CloseAfterIntegrityFailure(restored: bool) returns (ok: bool)
      requires Valid() && phase == Committing
      modifies this
      ensures Valid() && ok == (!restored || old(semantic).Some?)
      ensures View() == AfterIntegrityFailure(old(View()), restored)
    {
      if !restored {
        phase := Escalating;
        return true;
      }
      if semantic.None? { return false; }
      Settle(pendingAttempt.value, nextKind, Developing);
      ok := true;
    }

    /** The credential was not available, so no worker started. */
    method RefundUnstarted(resuming: bool)
      requires Valid() && phase == Developing
      modifies this
      ensures Valid() && View() == AfterRefund(old(View()), resuming)
    {
      hide Sound;
      RefundIsSound(View(), resuming);
      if semantic.None? || resuming { return; }
      if semantic.value in integrationIds {
        integrationIds := Without(integrationIds, semantic.value);
        crossed := if pendingKind == Integration then crossed else crossed + [pendingKind];
      } else if pendingKind == CiRepair {
        settled := settled + 1;
      } else if ordinaryUsed > 0 {
        ordinaryUsed := ordinaryUsed - 1;
      }
      pendingAttempt, semantic := None, None;
    }

    /** The requirements changed under a pending attempt. */
    method Invalidate()
      requires Valid() && phase in {Developing, Committing}
      modifies this`closed, this`invalidated, this`semantic, this`phase
      ensures Valid() && View() == AfterInvalidation(old(View()))
    {
      hide Sound;
      InvalidationIsSound(View());
      var closing := if semantic.Some? then [Closed(semantic.value, pendingKind)] else [];
      closed, invalidated := closed + closing, invalidated + closing;
      semantic, phase := None, Blocked;
    }

    method Reopen(kind: Kind)
      requires Valid()
      modifies this`phase, this`nextKind
      ensures Valid() && View() == AfterReopening(old(View()), kind)
    {
      if pendingAttempt.None? { nextKind := kind; }
      phase := Developing;
    }

    method Take(step: Step)
      requires Valid()
      modifies this
      ensures Valid() && View() == Next(limits, old(View()), step)
    {
      hide Sound;
      match step {
        case Allocate(boundary, window) => if phase == Developing { var _ := Allocate(boundary, window); }
        case Return => if phase == Developing && semantic.Some? { StoreResult(); }
        case Candidate => if phase == Committing { var _ := CloseWithCandidate(); }
        case NoCode => if phase == Committing { var _ := CloseWithoutCode(); }
        case Integrity(restored) => if phase == Committing { var _ := CloseAfterIntegrityFailure(restored); }
        case Refund(resuming) => if phase == Developing { RefundUnstarted(resuming); }
        case Stale => if phase in {Developing, Committing} { Invalidate(); }
        case Reopen(kind) => Reopen(kind);
      }
    }
  }

  /** The job, updated step by step, carries exactly the charges that the steps describe. */
  method Run(limits: Limits, steps: seq<Step>)
    returns (ordinary: nat, ci: nat, integration: seq<Identity>, closed: seq<Closed>, semantic: Option<Identity>)
    ensures var s := Fold(limits, steps);
            && ordinary == s.ordinaryUsed && ci == s.ciUsed && integration == s.integrationIds
            && closed == s.closed && semantic == s.semantic
  {
    var job := new DevelopmentJob(limits);
    for n := 0 to |steps|
      invariant fresh(job) && job.Valid() && job.limits == limits && job.View() == Fold(limits, steps[..n])
    {
      FoldOnce(limits, steps, n);
      job.Take(steps[n]);
    }
    assert steps[..|steps|] == steps;
    ordinary, ci, integration, closed, semantic := job.ordinaryUsed, job.ciUsed, job.integrationIds, job.closed, job.semantic;
  }
}
