/** Removing the local and remote leftovers of completed deliveries, with retries and without ever redoing one. */
module DeliveryCleanup {
  import opened Common

  const MAX_AUTOMATIC_ATTEMPTS := 3

  type Branch = nat

  datatype Kind = Ticket | RunRepair | Parent | FinalRun

  datatype ItemStatus = ItemPending | ItemCleanupPending | ItemCompleted

  datatype Item = Item(
    kind: Kind, head: Option<Sha>, remoteHead: Option<Sha>, attempts: nat, status: ItemStatus, dirty: bool)

  datatype Status = Pending | CleanupPending | Completed

  /** How one automatic attempt ends: at the first step that fails, or not at all. */
  datatype Outcome = CheckoutFails | WorktreeFails | LocalFails | RemoteFails | AllStepsWork

  /** What Git and GitHub will answer: by the call, the branch and the attempt number. */
  type Fate = (nat, Branch, nat) -> Outcome

  /** What actually happened to a repository. */
  datatype Effect =
    | RemovedWorktree(branch: Branch, head: Sha)
    | DeletedLocal(branch: Branch, head: Sha)
    | DeletedRemote(branch: Branch, head: Sha)

  /** The head that the remote branch must still have. */
  function RemoteHead(i: Item): Option<Sha> { if i.remoteHead.Some? then i.remoteHead else i.head }

  /** Run repairs have no remote branch of their own to delete. */
  predicate Works(i: Item, o: Outcome) {
    i.head.Some? && (o == AllStepsWork || (o == RemoteFails && i.kind == RunRepair))
  }

  predicate AllCompleted(items: map<Branch, Item>) {
    forall b :: b in items ==> items[b].status == ItemCompleted
  }

  // ---- What one call does to the books ----

  datatype State = State(created: bool, status: Status, items: map<Branch, Item>)

  type Owner = (Kind, Branch, Option<Sha>)

  datatype Step =
    | Deliver(owner: Owner)
    | DieInDelivery(owner: Owner)
    | Retry(owners: seq<Owner>)
    | DieInRetry(owners: seq<Owner>)
    | Preserve(owner: Owner, remote: Option<Sha>)

  /** An item is registered once; a second registration changes nothing, not even the head. */
  function Scheduled(s: State, owner: Owner): State {
    State(true, if s.created then s.status else Pending,
          if owner.1 in s.items then s.items
          else s.items[owner.1 := Item(owner.0, owner.2, None, 0, ItemPending, false)])
  }

  function AllScheduled(s: State, owners: seq<Owner>): State {
    if owners == [] then s else Scheduled(AllScheduled(s, owners[..|owners| - 1]), owners[|owners| - 1])
  }

  function Tried(i: Item, o: Outcome): Item {
    i.(attempts := i.attempts + 1, status := if Works(i, o) then ItemCompleted else ItemCleanupPending)
  }

  /** Attempts in a row, and none after the one that worked. */
  function AfterTries(i: Item, b: Branch, tries: nat, call: nat, fate: Fate): Item
    decreases tries
  {
    if tries == 0 || i.status == ItemCompleted then i
    else AfterTries(Tried(i, fate(call, b, i.attempts + 1)), b, tries - 1, call, fate)
  }

  /** What one pass over the items does to one of them. */
  function PassedItem(i: Item, b: Branch, only: Option<Branch>, managed: set<Branch>, call: nat, fate: Fate): Item {
    if i.status == ItemCompleted || (only.Some? && only.value != b) then i
    else if b !in managed then i.(status := ItemCleanupPending)
    else AfterTries(i, b, MAX_AUTOMATIC_ATTEMPTS, call, fate)
  }

  function Attempted(s: State, only: Option<Branch>, managed: set<Branch>, call: nat, fate: Fate): State {
    var items := map b | b in s.items :: PassedItem(s.items[b], b, only, managed, call, fate);
    State(s.created, if AllCompleted(items) then Completed else CleanupPending, items)
  }

  function OnlyFor(owner: Owner): Option<Branch> { if owner.0 == Ticket then Some(owner.1) else None }

  /** A stale dirty checkout is exposed without deleting anything; that may reopen a finished item. */
  function Preserved(s: State, owner: Owner, remote: Option<Sha>): State {
    var booked := Scheduled(s, owner);
    var i := booked.items[owner.1];
    State(true, CleanupPending, booked.items[owner.1 := i.(
      remoteHead := if i.remoteHead.Some? then i.remoteHead else remote, status := ItemCleanupPending, dirty := true)])
  }

  /** A process that dies between the two saves of a call leaves the books of the first one. */
  function Next(managed: set<Branch>, s: State, step: Step, call: nat, fate: Fate): State {
    match step
    case Deliver(owner) => Attempted(Scheduled(s, owner), OnlyFor(owner), managed, call, fate)
    case DieInDelivery(owner) => Scheduled(s, owner)
    case Retry(owners) =>
      var booked := AllScheduled(s, owners);
      if booked.created then Attempted(booked, None, managed, call, fate) else booked
    case DieInRetry(owners) => AllScheduled(s, owners)
    case Preserve(owner, remote) => Preserved(s, owner, remote)
  }

  const INITIAL := State(false, Pending, map[])

  function Fold(managed: set<Branch>, steps: seq<Step>, fate: Fate): State {
    if steps == [] then INITIAL
    else Next(managed, Fold(managed, steps[..|steps| - 1], fate), steps[|steps| - 1], |steps| - 1, fate)
  }

  // ---- What every run keeps ----

  /** At most three attempts, the last one worked exactly if the item is completed, and none before it did. */
  lemma {:induction false} TriesExactly(i: Item, b: Branch, tries: nat, call: nat, fate: Fate)
    requires i.status != ItemCompleted
    ensures var after := AfterTries(i, b, tries, call, fate);
            && after == i.(attempts := after.attempts, status := after.status)
            && i.attempts <= after.attempts <= i.attempts + tries
            && (forall n :: i.attempts < n < after.attempts ==> !Works(i, fate(call, b, n)))
            && (after.status == ItemCompleted <==> i.attempts < after.attempts && Works(i, fate(call, b, after.attempts)))
            && (after.status != ItemCompleted ==> after.attempts == i.attempts + tries)
    decreases tries
  {
    if tries > 0 {
      var once := Tried(i, fate(call, b, i.attempts + 1));
      if once.status != ItemCompleted { TriesExactly(once, b, tries - 1, call, fate); }
    }
  }

  /** A later state of the same item: identity and head stay, a call adds at most three attempts, and a completed
      item stays as it is unless its dirty checkout is preserved. */
  predicate Later(before: Item, after: Item, reopened: bool) {
    && after.kind == before.kind && after.head == before.head
    && before.attempts <= after.attempts <= before.attempts + MAX_AUTOMATIC_ATTEMPTS
    && (before.status == ItemCompleted && !reopened ==> after == before)
  }

  predicate Reopens(step: Step, b: Branch) { step.Preserve? && step.owner.1 == b }

  lemma {:induction false} SchedulingKeeps(s: State, owners: seq<Owner>)
    ensures forall b :: b in s.items ==> b in AllScheduled(s, owners).items && AllScheduled(s, owners).items[b] == s.items[b]
    ensures s.created ==> AllScheduled(s, owners).created && AllScheduled(s, owners).status == s.status
    ensures owners != [] ==> AllScheduled(s, owners).created
  {
    if owners != [] { SchedulingKeeps(s, owners[..|owners| - 1]); }
  }

  lemma PassKeeps(s: State, b: Branch, only: Option<Branch>, managed: set<Branch>, call: nat, fate: Fate)
    requires b in s.items
    ensures b in Attempted(s, only, managed, call, fate).items
    ensures Later(s.items[b], Attempted(s, only, managed, call, fate).items[b], false)
  {
    if s.items[b].status != ItemCompleted { TriesExactly(s.items[b], b, MAX_AUTOMATIC_ATTEMPTS, call, fate); }
  }

  lemma StepKeeps(managed: set<Branch>, s: State, step: Step, call: nat, fate: Fate, b: Branch)
    requires b in s.items
    ensures b in Next(managed, s, step, call, fate).items
    ensures Later(s.items[b], Next(managed, s, step, call, fate).items[b], Reopens(step, b))
  {
    match step {
      case Deliver(owner) => PassKeeps(Scheduled(s, owner), b, OnlyFor(owner), managed, call, fate);
      case DieInDelivery(owner) =>
      case Retry(owners) =>
        SchedulingKeeps(s, owners);
        var booked := AllScheduled(s, owners);
        if booked.created { PassKeeps(booked, b, None, managed, call, fate); }
      case DieInRetry(owners) => SchedulingKeeps(s, owners);
      case Preserve(owner, remote) =>
    }
  }

  /**
   * Whatever is called, fails or dies: an item keeps its kind and its first head for ever, and once it is completed
   * nothing touches it again until its dirty checkout is preserved.
   */
  lemma {:induction false} ItemsStay(managed: set<Branch>, steps: seq<Step>, fate: Fate, n: nat, b: Branch)
    requires n <= |steps| && b in Fold(managed, steps[..n], fate).items
    ensures b in Fold(managed, steps, fate).items
    ensures var before, after := Fold(managed, steps[..n], fate).items[b], Fold(managed, steps, fate).items[b];
            && after.kind == before.kind && after.head == before.head
            && (before.status == ItemCompleted && (forall k :: n <= k < |steps| ==> !Reopens(steps[k], b)) ==> after == before)
    decreases |steps|
  {
    hide Next;
    if n == |steps| {
      assert steps[..n] == steps;
    } else {
      var last := |steps| - 1;
      assert steps[..last][..n] == steps[..n];
      ItemsStay(managed, steps[..last], fate, n, b);
      StepKeeps(managed, Fold(managed, steps[..last], fate), steps[last], last, fate, b);
    }
  }

  /** The overall status tells the truth. */
  predicate Settled(s: State) { s.created ==> (s.status == Completed <==> AllCompleted(s.items)) }

  predicate Dies(step: Step) { step.DieInDelivery? || step.DieInRetry? }

  /** After every call that returned, the cleanup is completed exactly when every item is. */
  lemma CallsSettle(managed: set<Branch>, s: State, step: Step, call: nat, fate: Fate)
    requires !Dies(step)
    ensures Settled(Next(managed, s, step, call, fate))
  {
    if step.Preserve? {
      assert Next(managed, s, step, call, fate).items[step.owner.1].status == ItemCleanupPending;
    }
  }

  /** Nothing is booked before the books exist, and nothing is tried on an unmanaged branch. */
  predicate Canonical(managed: set<Branch>, s: State) {
    && (!s.created ==> s.items == map[])
    && forall b :: b in s.items && b !in managed ==> s.items[b].attempts == 0 && s.items[b].status != ItemCompleted
  }

  lemma {:induction false} SchedulingIsCanonical(managed: set<Branch>, s: State, owners: seq<Owner>)
    requires Canonical(managed, s)
    ensures Canonical(managed, AllScheduled(s, owners))
  {
    if owners != [] { SchedulingIsCanonical(managed, s, owners[..|owners| - 1]); }
  }

  lemma StepIsCanonical(managed: set<Branch>, s: State, step: Step, call: nat, fate: Fate)
    requires Canonical(managed, s)
    ensures Canonical(managed, Next(managed, s, step, call, fate))
  {
    if step.Retry? || step.DieInRetry? { SchedulingIsCanonical(managed, s, step.owners); }
  }

  /** Unmanaged branches are never tried, in any run. */
  lemma {:induction false} UnmanagedStayUntouched(managed: set<Branch>, steps: seq<Step>, fate: Fate)
    ensures Canonical(managed, Fold(managed, steps, fate))
  {
    if steps != [] {
      var last := |steps| - 1;
      UnmanagedStayUntouched(managed, steps[..last], fate);
      StepIsCanonical(managed, Fold(managed, steps[..last], fate), steps[last], last, fate);
    }
  }

  predicate NamesNew(s: State, owners: seq<Owner>) {
    exists k :: 0 <= k < |owners| && owners[k].1 !in s.items
  }

  lemma {:induction false} NewItemsPend(s: State, owners: seq<Owner>)
    ensures forall b :: b in AllScheduled(s, owners).items && b !in s.items ==>
              AllScheduled(s, owners).items[b].status == ItemPending
    ensures AllScheduled(s, owners).items == s.items <==> !NamesNew(s, owners)
  {
    if owners != [] {
      var last := |owners| - 1;
      NewItemsPend(s, owners[..last]);
      SchedulingKeeps(s, owners[..last]);
      assert NamesNew(s, owners) <==> NamesNew(s, owners[..last]) || owners[last].1 !in s.items by {
        forall k | 0 <= k < last ensures owners[..last][k] == owners[k] {}
      }
      if NamesNew(s, owners) {
        var k :| 0 <= k < |owners| && owners[k].1 !in s.items;
        AllNamed(s, owners, k);
      }
    }
  }

  lemma {:induction false} AllNamed(s: State, owners: seq<Owner>, k: nat)
    requires k < |owners|
    ensures owners[k].1 in AllScheduled(s, owners).items
  {
    var last := |owners| - 1;
    if k < last {
      assert owners[..last][k] == owners[k];
      AllNamed(s, owners[..last], k);
    }
  }

  /** A death leaves a status that lies exactly if a completed cleanup was just given an item it did not have. */
  lemma DeathLeavesStaleStatusExactly(managed: set<Branch>, s: State, step: Step, call: nat, fate: Fate)
    requires Settled(s) && Canonical(managed, s) && Dies(step)
    ensures Settled(Next(managed, s, step, call, fate)) <==>
            !(s.created && s.status == Completed && NamesNew(s, if step.DieInRetry? then step.owners else [step.owner]))
  {
    var owners := if step.DieInRetry? then step.owners else [step.owner];
    assert step.DieInDelivery? ==> owners[..0] == [] && AllScheduled(s, owners) == Scheduled(s, step.owner);
    var after := AllScheduled(s, owners);
    SchedulingKeeps(s, owners);
    NewItemsPend(s, owners);
    if NamesNew(s, owners) {
      var k :| 0 <= k < |owners| && owners[k].1 !in s.items;
      AllNamed(s, owners, k);
      assert after.items[owners[k].1].status == ItemPending;
      if !s.created { FirstStatus(s, owners); }
    } else if !s.created && after.created {
      FirstStatus(s, owners);
    }
  }

  lemma {:induction false} FirstStatus(s: State, owners: seq<Owner>)
    requires !s.created && owners != []
    ensures AllScheduled(s, owners).status == Pending
  {
    if |owners| > 1 { FirstStatus(s, owners[..|owners| - 1]); }
  }

  // ---- What was really done ----

  /** An effect is licensed by its item: a managed branch, at the head that was recorded first. */
  predicate Licensed(e: Effect, managed: set<Branch>, items: map<Branch, Item>) {
    && e.branch in managed && e.branch in items
    && match e
       case RemovedWorktree(_, head) => items[e.branch].head == Some(head)
       case DeletedLocal(_, head) => items[e.branch].head == Some(head)
       case DeletedRemote(_, head) =>
         Some(head) in {items[e.branch].head, items[e.branch].remoteHead} && items[e.branch].kind != RunRepair
  }

  /** A completed item was really cleaned up. */
  predicate Done(i: Item, b: Branch, effects: seq<Effect>) {
    i.status == ItemCompleted ==>
      && i.head.Some? && RemovedWorktree(b, i.head.value) in effects && DeletedLocal(b, i.head.value) in effects
      && (i.kind != RunRepair ==> DeletedRemote(b, RemoteHead(i).value) in effects)
  }

  /** Only what the items license was done, and whatever is completed was done. */
  ghost predicate Honest(managed: set<Branch>, items: map<Branch, Item>, effects: seq<Effect>) {
    && (forall k :: 0 <= k < |effects| ==> Licensed(effects[k], managed, items))
    && forall b :: b in items ==> Done(items[b], b, effects)
  }

  /** What one automatic attempt does before the first step that fails. */
  function EffectsOf(i: Item, b: Branch, o: Outcome): seq<Effect> {
    if i.head.None? || o == CheckoutFails || o == WorktreeFails then []
    else if o == LocalFails then [RemovedWorktree(b, i.head.value)]
    else if o == RemoteFails || i.kind == RunRepair then [RemovedWorktree(b, i.head.value), DeletedLocal(b, i.head.value)]
    else [RemovedWorktree(b, i.head.value), DeletedLocal(b, i.head.value), DeletedRemote(b, RemoteHead(i).value)]
  }

  lemma AttemptStaysHonest(managed: set<Branch>, items: map<Branch, Item>, effects: seq<Effect>, b: Branch, o: Outcome)
    requires Honest(managed, items, effects) && b in items && b in managed
    ensures Honest(managed, items[b := Tried(items[b], o)], effects + EffectsOf(items[b], b, o))
  {
    var after, more := items[b := Tried(items[b], o)], effects + EffectsOf(items[b], b, o);
    forall k | 0 <= k < |more| ensures Licensed(more[k], managed, after) {
      if k < |effects| { assert Licensed(effects[k], managed, items); }
    }
    forall c | c in after ensures Done(after[c], c, more) {
      if c != b {
        assert Done(items[c], c, effects);
      } else if Works(items[b], o) {
        AttemptIsDone(items[b], b, o, effects);
      }
    }
  }

  lemma AttemptIsDone(i: Item, b: Branch, o: Outcome, effects: seq<Effect>)
    requires Works(i, o)
    ensures Done(Tried(i, o), b, effects + EffectsOf(i, b, o))
  {
    var done := EffectsOf(i, b, o);
    assert done[0] in effects + done && done[1] in effects + done && (i.kind != RunRepair ==> done[2] in effects + done);
  }

  /** A death loses what the attempts recorded, not what they did: that stays licensed by the saved books. */
  lemma DeathStaysHonest(managed: set<Branch>, saved: State, only: Option<Branch>, call: nat, fate: Fate, effects: seq<Effect>)
    requires Honest(managed, Attempted(saved, only, managed, call, fate).items, effects)
    ensures Honest(managed, saved.items, effects)
  {
    hide Done, AfterTries;
    var after := Attempted(saved, only, managed, call, fate).items;
    forall b | b in saved.items
      ensures after[b] == saved.items[b].(attempts := after[b].attempts, status := after[b].status)
      ensures Done(saved.items[b], b, effects)
    {
      assert Done(after[b], b, effects);
      if saved.items[b].status == ItemCompleted {
      } else {
        TriesExactly(saved.items[b], b, MAX_AUTOMATIC_ATTEMPTS, call, fate);
        NotYetDone(saved.items[b], b, effects);
      }
    }
    forall k | 0 <= k < |effects| ensures Licensed(effects[k], managed, saved.items) {
      assert Licensed(effects[k], managed, after);
    }
  }

  lemma NotYetDone(i: Item, b: Branch, effects: seq<Effect>)
    requires i.status != ItemCompleted
    ensures Done(i, b, effects)
  {
  }

  // ---- The engine that updates the books in place ----

  class CleanupEngine {
    const managed: set<Branch>
    var created: bool
    var status: Status
    var order: seq<Branch>            // the items in the order they were scheduled
    var items: map<Branch, Item>
    ghost var effects: seq<Effect>

    constructor (managed: set<Branch>)
      ensures this.managed == managed && Valid() && View() == INITIAL && effects == []
    {
      this.managed := managed;
      created, status, order, items, effects := false, Pending, [], map[], [];
    }

    ghost function View(): State
      reads this
    {
      State(created, status, items)
    }

    ghost predicate Ordered()
      reads this
    {
      && (forall b :: b in order <==> b in items)
      && (forall i, j :: 0 <= i < j < |order| ==> order[i] != order[j])
    }

    ghost predicate Valid()
      reads this
    {
      Ordered() && Canonical(managed, View()) && Honest(managed, items, effects)
    }

    /** Register an item once. */
    method Schedule(owner: Owner)
      requires Valid()
      modifies this`created, this`order, this`items, this`status
      ensures Valid() && View() == Scheduled(old(View()), owner)
    {
      if !created { created, status := true, Pending; }
      if owner.1 !in items {
        items := items[owner.1 := Item(owner.0, owner.2, None, 0, ItemPending, false)];
        order := order + [owner.1];
      }
    }

    /** One automatic attempt: check, remove, delete locally, delete remotely, and stop at the first failure. */
    method TryOnce(branch: Branch, outcome: Outcome) returns (ok: bool)
      requires Valid() && branch in items && branch in managed && items[branch].status != ItemCompleted
      modifies this`items, this`effects
      ensures Valid() && effects == old(effects) + EffectsOf(old(items)[branch], branch, outcome)
      ensures ok == Works(old(items)[branch], outcome) && items == old(items)[branch := Tried(old(items)[branch], outcome)]
    {
      hide Honest;
      AttemptStaysHonest(managed, items, effects, branch, outcome);
      var item := items[branch];
      ghost var e := [];
      ok := outcome != CheckoutFails && item.head.Some?;
      if ok {
        var head, remote := item.head.value, RemoteHead(item).value;
        if outcome == WorktreeFails { ok := false; } else { e := e + [RemovedWorktree(branch, head)]; }
        if ok {
          if outcome == LocalFails { ok := false; } else { e := e + [DeletedLocal(branch, head)]; }
        }
        if ok && item.kind != RunRepair {
          if outcome == RemoteFails { ok := false; } else { e := e + [DeletedRemote(branch, remote)]; }
        }
      }
      assert e == EffectsOf(item, branch, outcome);
      items := items[branch := item.(attempts := item.attempts + 1, status := if ok then ItemCompleted else ItemCleanupPending)];
      effects := effects + e;
    }

    /** At most three attempts in a row, and none after the one that worked. */
    method AttemptItem(branch: Branch, call: nat, fate: Fate)
      requires Valid() && branch in items && items[branch].status != ItemCompleted
      modifies this`items, this`effects
      ensures Valid() && old(effects) <= effects
      ensures items == old(items)[branch := PassedItem(old(items)[branch], branch, None, managed, call, fate)]
    {
      hide Honest, Canonical, Ordered;
      if branch !in managed {
        MarkPending(branch);
        return;
      }
      for k := 0 to MAX_AUTOMATIC_ATTEMPTS
        invariant Valid() && old(effects) <= effects && branch in items && items == old(items)[branch := items[branch]]
        invariant items[branch].status != ItemCompleted
        invariant AfterTries(items[branch], branch, MAX_AUTOMATIC_ATTEMPTS - k, call, fate) ==
                    PassedItem(old(items)[branch], branch, None, managed, call, fate)
      {
        var ok := TryOnce(branch, fate(call, branch, items[branch].attempts + 1));
        if ok { return; }
      }
    }

    /** An item that must not be touched is left over. */
    method MarkPending(branch: Branch)
      requires Valid() && branch in items && items[branch].status != ItemCompleted
      modifies this`items
      ensures Valid() && items == old(items)[branch := old(items)[branch].(status := ItemCleanupPending)]
    {
      items := items[branch := items[branch].(status := ItemCleanupPending)];
    }

    /** Go through the items in order. */
    method PassItems(only: Option<Branch>, call: nat, fate: Fate)
      requires Valid()
      modifies this`items, this`effects
      ensures Valid() && old(effects) <= effects
      ensures items == map b | b in old(items) :: PassedItem(old(items)[b], b, only, managed, call, fate)
    {
      hide Honest, Canonical, PassedItem;
      for k := 0 to |order|
        invariant Valid() && old(effects) <= effects && items.Keys == old(items).Keys
        invariant forall i :: 0 <= i < k ==> items[order[i]] == PassedItem(old(items)[order[i]], order[i], only, managed, call, fate)
        invariant forall i :: k <= i < |order| ==> items[order[i]] == old(items)[order[i]]
      {
        PassItem(order[k], only, call, fate);
      }
      forall b | b in items ensures items[b] == PassedItem(old(items)[b], b, only, managed, call, fate) {
        var i :| 0 <= i < |order| && order[i] == b;
      }
    }

    /** Try what is left, then derive the overall status. */
    method Attempt(only: Option<Branch>, call: nat, fate: Fate)
      requires Valid() && created
      modifies this`items, this`effects, this`status
      ensures Valid() && old(effects) <= effects && View() == Attempted(old(View()), only, managed, call, fate)
    {
      hide Honest, PassedItem;
      PassItems(only, call, fate);
      var pending := exists k :: 0 <= k < |order| && items[order[k]].status != ItemCompleted;
      status := if pending then CleanupPending else Completed;
      if !pending {
        forall b | b in items ensures items[b].status == ItemCompleted {
          var i :| 0 <= i < |order| && order[i] == b;
        }
      }
    }

    method PassItem(branch: Branch, only: Option<Branch>, call: nat, fate: Fate)
      requires Valid() && branch in items
      modifies this`items, this`effects
      ensures Valid() && old(effects) <= effects
      ensures items == old(items)[branch := PassedItem(old(items)[branch], branch, only, managed, call, fate)]
    {
      hide Honest;
      if items[branch].status != ItemCompleted && (only.None? || branch == only.value) {
        AttemptItem(branch, call, fate);
      }
    }

    /** The process dies: the books of the last save remain, and everything that was done. */
    method Die(saved: State, only: Option<Branch>, call: nat, fate: Fate)
      requires Valid() && View() == Attempted(saved, only, managed, call, fate) && Canonical(managed, saved)
      modifies this`created, this`status, this`items
      ensures Valid() && View() == saved
    {
      hide Honest;
      DeathStaysHonest(managed, saved, only, call, fate, effects);
      created, status, items := saved.created, saved.status, saved.items;
    }

    /** A completed delivery schedules its own branch and tries it, or everything that is left. */
    method CompleteDelivery(owner: Owner, done: bool, dies: bool, call: nat, fate: Fate)
      requires Valid()
      modifies this
      ensures Valid() && old(effects) <= effects
      ensures !done ==> View() == old(View()) && effects == old(effects)
      ensures done ==> View() == Next(managed, old(View()), if dies then DieInDelivery(owner) else Deliver(owner), call, fate)
    {
      hide Honest, Canonical, Attempted;
      if !done { return; }
      Schedule(owner);
      var saved := State(created, status, items);
      Attempt(OnlyFor(owner), call, fate);
      if dies { Die(saved, OnlyFor(owner), call, fate); }
    }

    /** An explicit resume reconciles every completed owner and retries whatever is left. */
    method Resume(owners: seq<Owner>, dies: bool, call: nat, fate: Fate)
      requires Valid()
      modifies this
      ensures Valid() && old(effects) <= effects
      ensures View() == Next(managed, old(View()), if dies then DieInRetry(owners) else Retry(owners), call, fate)
    {
      hide Honest, Canonical, Attempted;
      for k := 0 to |owners|
        invariant Valid() && effects == old(effects) && View() == AllScheduled(old(View()), owners[..k])
      {
        assert owners[..k + 1][..k] == owners[..k];
        Schedule(owners[k]);
      }
      assert owners[..|owners|] == owners;
      if !created { return; }
      var saved := State(created, status, items);
      Attempt(None, call, fate);
      if dies { Die(saved, None, call, fate); }
    }

    /** Expose a stale dirty checkout without deleting anything. */
    method PreserveDirtyCheckout(owner: Owner, remote: Option<Sha>)
      requires Valid()
      modifies this`created, this`order, this`items, this`status
      ensures Valid() && View() == Preserved(old(View()), owner, remote)
    {
      Schedule(owner);
      var i := items[owner.1];
      items := items[owner.1 := i.(
        remoteHead := if i.remoteHead.Some? then i.remoteHead else remote, status := ItemCleanupPending, dirty := true)];
      status := CleanupPending;
    }

    method Take(step: Step, call: nat, fate: Fate)
      requires Valid()
      modifies this
      ensures Valid() && old(effects) <= effects && View() == Next(managed, old(View()), step, call, fate)
    {
      hide Honest, Canonical, Attempted;
      match step {
        case Deliver(owner) => CompleteDelivery(owner, true, false, call, fate);
        case DieInDelivery(owner) => CompleteDelivery(owner, true, true, call, fate);
        case Retry(owners) => Resume(owners, false, call, fate);
        case DieInRetry(owners) => Resume(owners, true, call, fate);
        case Preserve(owner, remote) => PreserveDirtyCheckout(owner, remote);
      }
    }
  }

  /**
   * Any calls, with any Git failures and any deaths: the books are exactly what the calls describe, nothing was
   * done to a repository that they do not license, and everything they call completed was really done.
   */
  method Run(managed: set<Branch>, steps: seq<Step>, fate: Fate)
    returns (created: bool, status: Status, items: map<Branch, Item>, ghost effects: seq<Effect>)
    ensures State(created, status, items) == Fold(managed, steps, fate)
    ensures Honest(managed, items, effects)
  {
    hide Honest, Next;
    var c := new CleanupEngine(managed);
    for n := 0 to |steps|
      invariant fresh(c) && c.Valid() && c.managed == managed && c.View() == Fold(managed, steps[..n], fate)
    {
      assert steps[..n + 1][..n] == steps[..n];
      c.Take(steps[n], n, fate);
    }
    assert steps[..|steps|] == steps;
    created, status, items, effects := c.created, c.status, c.items, c.effects;
  }

  /** A death right after the first save leaves a completed cleanup with an item that is still pending. */
  lemma DeathLeavesStaleStatus(first: Branch, second: Branch, fate: Fate)
    requires first != second && fate(0, first, 1) == AllStepsWork
    ensures var s := Fold({first, second}, [Deliver((Parent, first, Some(1))), DieInDelivery((Parent, second, Some(2)))], fate);
            s.status == Completed && second in s.items && s.items[second].status == ItemPending
  {
    var managed, steps := {first, second}, [Deliver((Parent, first, Some(1))), DieInDelivery((Parent, second, Some(2)))];
    var start := steps[..1];
    assert start == [steps[0]] && start[..0] == [] && |start| == 1;
    var once := Next(managed, INITIAL, steps[0], 0, fate);
    assert once.items.Keys == {first} && once.items[first].status == ItemCompleted;
    assert Fold(managed, start, fate) == once;
    assert Fold(managed, steps, fate) == Next(managed, once, steps[1], 1, fate);
  }
}
