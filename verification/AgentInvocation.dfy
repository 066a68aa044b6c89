/**
 * The durable facts of Agent Invocations: the selected one, those of the other Tickets, and a history with
 * one snapshot for each that was ever started. Every recorder event is saved before the recorder returns,
 * so the journal in memory and on disk agree between events.
 */
module AgentInvocation {
  import opened Common

  datatype Status = Running | Resuming | Failed | Completed

  datatype Wait = Wait(capacity: bool, startedAt: nat, endedAt: Option<nat>)

  datatype Segment = Segment(startedAt: Option<nat>, endedAt: Option<nat>)

  datatype Invocation = Invocation(
    subject: nat, semantic: nat, startedAt: nat, predecessor: Option<nat>, status: Status,
    requested: Option<nat>, reported: Option<nat>,
    outputAttempt: nat, validationError: string, ordinaryUsed: bool, capacityCount: nat,
    interrupted: bool, waits: seq<Wait>, segments: seq<Segment>)

  /** What identifies a started Invocation. */
  datatype Key = Key(subject: nat, startedAt: nat)

  function KeyOf(i: Invocation): Key { Key(i.subject, i.startedAt) }

  function Keys(history: seq<Invocation>): seq<Key> {
    seq(|history|, k requires 0 <= k < |history| => KeyOf(history[k]))
  }

  predicate OneOpenWait(waits: seq<Wait>) {
    forall i, j :: 0 <= i < j < |waits| ==> waits[i].endedAt.Some? || waits[j].endedAt.Some?
  }

  predicate OnlyLastOpen(segments: seq<Segment>) {
    forall i :: 0 <= i < |segments| - 1 ==> segments[i].endedAt.Some?
  }

  function Thread(i: Invocation): Option<nat> { if i.reported.Some? then i.reported else i.requested }

  predicate Open(i: Invocation) { i.status in {Running, Resuming} }

  predicate LastEnded(segments: seq<Segment>) {
    segments != [] ==> segments[|segments| - 1].endedAt.Some?
  }

  // ---- What one event does to the records ----

  /** `parked` are the Invocations of the Tickets that are not selected; `lane` is the selected one. */
  datatype Records = Records(
    active: Option<Invocation>, history: seq<Invocation>, clock: nat, lane: nat, parked: map<nat, Invocation>)

  /** The history once the snapshot of `i` is brought up to date: replaced in place, or added at the end. */
  function Synced(before: seq<Invocation>, i: Invocation): (after: seq<Invocation>)
    ensures |after| == |before| + if KeyOf(i) in Keys(before) then 0 else 1
  {
    if KeyOf(i) in Keys(before) then
      seq(|before|, k requires 0 <= k < |before| => if KeyOf(before[k]) == KeyOf(i) then i else before[k])
    else before + [i]
  }

  function Updated(s: Records, i: Invocation): Records {
    s.(active := Some(i), history := Synced(s.history, i), clock := s.clock + 1)
  }

  /** Another Ticket is selected: its Invocation becomes the active one. */
  function Selected(s: Records, lane: nat): Records {
    if lane == s.lane then s
    else
      s.(lane := lane, active := if lane in s.parked then Some(s.parked[lane]) else None,
         parked := (if s.active.Some? then s.parked[s.lane := s.active.value] else s.parked) - {lane})
  }

  function Closed(i: Invocation): Invocation { if Open(i) then i.(status := Failed) else i }

  /** An Invocation of a Ticket that was not completed, whose executor is gone. */
  predicate LostBy(s: Records, done: set<nat>, i: Invocation) {
    exists n :: n in s.parked && n !in done && s.parked[n] == i
  }

  /** The executors are known to be gone: what the other Tickets left running is closed, unless they are completed. */
  function ParkedClosed(s: Records, done: set<nat>): Records {
    s.(parked := map n | n in s.parked :: if n in done then s.parked[n] else Closed(s.parked[n]),
       history := seq(|s.history|, k requires 0 <= k < |s.history| =>
                        if LostBy(s, done, s.history[k]) then Closed(s.history[k]) else s.history[k]))
  }

  function ActiveClosed(s: Records): Records {
    if s.active.None? || !Open(s.active.value) then s
    else s.(active := Some(Closed(s.active.value)), history := Synced(s.history, Closed(s.active.value)))
  }

  /** One recorder, interruption, stop or selection event. */
  datatype Happening =
    | Started(subject: nat, semantic: nat, requested: Option<nat>)
    | Stepped(attempt: nat, error: string)
    | Heard(thread: nat)
    | Released | Reaped
    | Waits(capacity: bool, ordinaryUsed: bool, capacityCount: nat)
    | Recovers
    | Fails(interrupted: Option<bool>)
    | Completes(thread: nat)
    | Selects(lane: nat)
    | ExecutorsGone(done: set<nat>)

  /** What an event says about the Invocation it belongs to. */
  function Changed(i: Invocation, h: Happening, now: nat): Invocation {
    match h
    case Stepped(attempt, error) => i.(outputAttempt := attempt, validationError := error, interrupted := true)
    case Heard(thread) =>
      i.(reported := Some(thread), status := if i.requested in {None, Some(thread)} then i.status else Failed)
    case Released => i.(segments := i.segments + [Segment(Some(now), None)])
    case Reaped => i.(segments := Finished(i.segments, now))
    case Waits(capacity, ordinaryUsed, capacityCount) =>
      i.(status := Resuming, interrupted := true, ordinaryUsed := ordinaryUsed, capacityCount := capacityCount,
         waits := Opened(i.waits, capacity, now))
    case Recovers => i.(status := Running, waits := Ended(i.waits, now))
    case Fails(interrupted) =>
      i.(status := Failed, interrupted := if interrupted.Some? then interrupted.value else i.interrupted)
    case Completes(thread) => i.(status := Completed, reported := Some(thread), interrupted := false)
    case _ => i
  }

  predicate SameWork(previous: Option<Invocation>, semantic: nat) {
    previous.Some? && previous.value.semantic == semantic
  }

  /** An interrupted predecessor on the same thread hands on its validation error as well. */
  predicate ResumesOutput(previous: Option<Invocation>, semantic: nat, requested: Option<nat>) {
    && SameWork(previous, semantic)
    && requested.Some? && requested == Thread(previous.value)
    && previous.value.status in {Failed, Resuming, Running}
    && previous.value.interrupted
  }

  function StartedFrom(
    previous: Option<Invocation>, subject: nat, semantic: nat, requested: Option<nat>, now: nat): Invocation
  {
    var same := SameWork(previous, semantic);
    Invocation(
      subject, semantic, now, if same then Some(previous.value.startedAt) else None, Running, requested, None,
      if same then previous.value.outputAttempt else 1,
      if ResumesOutput(previous, semantic, requested) then previous.value.validationError else "",
      same && previous.value.ordinaryUsed,
      if same then previous.value.capacityCount else 0,
      false, [], [])
  }

  function Finished(segments: seq<Segment>, now: nat): seq<Segment> {
    if segments != [] && segments[|segments| - 1].endedAt.None? then
      segments[|segments| - 1 := segments[|segments| - 1].(endedAt := Some(now))]
    else segments + [Segment(None, Some(now))]
  }

  predicate AllEnded(waits: seq<Wait>) {
    forall k :: 0 <= k < |waits| ==> waits[k].endedAt.Some?
  }

  function Opened(waits: seq<Wait>, capacity: bool, now: nat): seq<Wait> {
    if AllEnded(waits) then waits + [Wait(capacity, now, None)] else waits
  }

  function Ended(waits: seq<Wait>, now: nat): seq<Wait> {
    seq(|waits|, k requires 0 <= k < |waits| => if waits[k].endedAt.Some? then waits[k] else waits[k].(endedAt := Some(now)))
  }

  function Next(s: Records, h: Happening): Records {
    match h
    case Started(subject, semantic, requested) => Updated(s, StartedFrom(s.active, subject, semantic, requested, s.clock))
    case Selects(lane) => Selected(s, lane)
    case ExecutorsGone(done) => ActiveClosed(ParkedClosed(s, done))
    case Released =>
      // The worker wrapper never starts a segment while one is open.
      if s.active.None? || !LastEnded(s.active.value.segments) then s else Updated(s, Changed(s.active.value, h, s.clock))
    case _ => if s.active.None? then s else Updated(s, Changed(s.active.value, h, s.clock))
  }

  const NOTHING := Records(None, [], 0, 0, map[])

  function Recorded(happenings: seq<Happening>): Records {
    if happenings == [] then NOTHING else Next(Recorded(happenings[..|happenings| - 1]), happenings[|happenings| - 1])
  }

  function Starts(happenings: seq<Happening>): nat {
    if happenings == [] then 0
    else Starts(happenings[..|happenings| - 1]) + if happenings[|happenings| - 1].Started? then 1 else 0
  }

  // ---- What every run keeps ----

  predicate DistinctKeys(history: seq<Invocation>) {
    forall a, b :: 0 <= a < b < |history| ==> KeyOf(history[a]) != KeyOf(history[b])
  }

  predicate StartedBefore(history: seq<Invocation>, clock: nat) {
    forall i :: i in history ==> i.startedAt < clock
  }

  predicate Orderly(history: seq<Invocation>) {
    forall i :: i in history ==> OneOpenWait(i.waits) && OnlyLastOpen(i.segments)
  }

  /** Every slot holds the snapshot of an Invocation of its own. */
  predicate SlotsAreCurrent(s: Records) {
    && (s.active.Some? ==> s.active.value in s.history)
    && s.lane !in s.parked
    && (forall n :: n in s.parked ==> s.parked[n] in s.history)
    && (forall n :: n in s.parked && s.active.Some? ==> KeyOf(s.parked[n]) != KeyOf(s.active.value))
    && forall n, m :: n in s.parked && m in s.parked && n != m ==> KeyOf(s.parked[n]) != KeyOf(s.parked[m])
  }

  predicate Sound(s: Records) {
    DistinctKeys(s.history) && StartedBefore(s.history, s.clock) && Orderly(s.history) && SlotsAreCurrent(s)
  }

  lemma SyncedEntry(before: seq<Invocation>, i: Invocation)
    ensures i in Synced(before, i)
    ensures forall j :: j in before && KeyOf(j) != KeyOf(i) ==> j in Synced(before, i)
    ensures forall j :: j in Synced(before, i) ==> j == i || j in before
    ensures DistinctKeys(before) ==> DistinctKeys(Synced(before, i))
    ensures Keys(before) <= Keys(Synced(before, i))
  {
    var after := Synced(before, i);
    if KeyOf(i) in Keys(before) {
      var k :| 0 <= k < |before| && Keys(before)[k] == KeyOf(i);
      assert after[k] == i;
      forall j | j in before && KeyOf(j) != KeyOf(i) ensures j in after {
        var m :| 0 <= m < |before| && before[m] == j;
        assert after[m] == j;
      }
    } else {
      assert after[|before|] == i;
      forall k | 0 <= k < |before| ensures KeyOf(before[k]) != KeyOf(i) { assert Keys(before)[k] == KeyOf(before[k]); }
    }
  }

  lemma UpdateIsSound(s: Records, i: Invocation)
    requires Sound(s) && OneOpenWait(i.waits) && OnlyLastOpen(i.segments)
    requires (s.active.Some? && KeyOf(i) == KeyOf(s.active.value)) || i.startedAt == s.clock
    ensures Sound(Updated(s, i)) && Keys(s.history) <= Keys(Updated(s, i).history)
    ensures |Updated(s, i).history| == |s.history| + if i.startedAt == s.clock then 1 else 0
  {
    hide Synced;
    SyncedEntry(s.history, i);
    if i.startedAt == s.clock {
      forall k | 0 <= k < |s.history| ensures Keys(s.history)[k] != KeyOf(i) {}
    } else {
      var k :| 0 <= k < |s.history| && s.history[k] == s.active.value;
      assert Keys(s.history)[k] == KeyOf(i);
    }
  }

  lemma ChangeIsOrderly(i: Invocation, h: Happening, now: nat)
    requires OneOpenWait(i.waits) && OnlyLastOpen(i.segments)
    requires h.Released? ==> LastEnded(i.segments)
    ensures var next := Changed(i, h, now); KeyOf(next) == KeyOf(i) && OneOpenWait(next.waits) && OnlyLastOpen(next.segments)
  {
    if h.Waits? { OpenedHasOneOpen(i.waits, h.capacity, now); }
  }

  lemma OpenedHasOneOpen(waits: seq<Wait>, capacity: bool, now: nat)
    requires OneOpenWait(waits)
    ensures var w := Opened(waits, capacity, now);
            OneOpenWait(w) && exists k :: 0 <= k < |w| && w[k].endedAt.None?
  {
    if AllEnded(waits) {
      assert Opened(waits, capacity, now)[|waits|].endedAt.None?;
    } else {
      var k :| 0 <= k < |waits| && waits[k].endedAt.None?;
    }
  }

  lemma ActiveClosingIsSound(s: Records)
    requires Sound(s)
    ensures Sound(ActiveClosed(s)) && Keys(ActiveClosed(s).history) == Keys(s.history)
  {
    if s.active.Some? && Open(s.active.value) {
      var i := Closed(s.active.value);
      SyncedEntry(s.history, i);
      var k :| 0 <= k < |s.history| && s.history[k] == s.active.value;
      assert Keys(s.history)[k] == KeyOf(i);
    }
  }

  lemma ParkedSnapshot(s: Records, done: set<nat>, n: nat)
    requires SlotsAreCurrent(s) && n in s.parked
    ensures ParkedClosed(s, done).parked[n] in ParkedClosed(s, done).history
  {
    var k :| 0 <= k < |s.history| && s.history[k] == s.parked[n];
    assert n in done ==> !LostBy(s, done, s.history[k]);
    assert ParkedClosed(s, done).history[k] == ParkedClosed(s, done).parked[n];
  }

  lemma ActiveSnapshotStays(s: Records, done: set<nat>)
    requires SlotsAreCurrent(s) && s.active.Some?
    ensures s.active.value in ParkedClosed(s, done).history
  {
    var k :| 0 <= k < |s.history| && s.history[k] == s.active.value;
    assert !LostBy(s, done, s.history[k]);
    assert ParkedClosed(s, done).history[k] == s.active.value;
  }

  /** The closed history has the same Invocations, each as before or closed. */
  lemma ParkedHistory(s: Records, done: set<nat>)
    requires DistinctKeys(s.history) && StartedBefore(s.history, s.clock) && Orderly(s.history)
    ensures var after := ParkedClosed(s, done).history;
            DistinctKeys(after) && StartedBefore(after, s.clock) && Orderly(after) && Keys(after) == Keys(s.history)
  {
    hide LostBy;
    var after := ParkedClosed(s, done).history;
    assert forall k :: 0 <= k < |after| ==> after[k] in {s.history[k], Closed(s.history[k])};
    forall i | i in after ensures OneOpenWait(i.waits) && OnlyLastOpen(i.segments) && i.startedAt < s.clock {
      var k :| 0 <= k < |after| && after[k] == i;
      assert s.history[k] in s.history;
    }
  }

  lemma ParkedClosingIsSound(s: Records, done: set<nat>)
    requires Sound(s)
    ensures Sound(ParkedClosed(s, done)) && Keys(ParkedClosed(s, done).history) == Keys(s.history)
  {
    hide DistinctKeys, StartedBefore, Orderly, LostBy, Keys;
    ParkedHistory(s, done);
    var after := ParkedClosed(s, done);
    forall n | n in s.parked ensures after.parked[n] in after.history {
      ParkedSnapshot(s, done, n);
    }
    if s.active.Some? { ActiveSnapshotStays(s, done); }
  }

  lemma StepIsSound(s: Records, h: Happening)
    requires Sound(s)
    ensures Sound(Next(s, h)) && Keys(s.history) <= Keys(Next(s, h).history)
    ensures |Next(s, h).history| == |s.history| + if h.Started? then 1 else 0
  {
    hide Synced;
    match h {
      case Started(subject, semantic, requested) =>
        UpdateIsSound(s, StartedFrom(s.active, subject, semantic, requested, s.clock));
      case Selects(lane) =>
      case ExecutorsGone(done) =>
        ParkedClosingIsSound(s, done);
        ActiveClosingIsSound(ParkedClosed(s, done));
        assert |Keys(Next(s, h).history)| == |Keys(s.history)|;
      case _ =>
        if Next(s, h) != s {
          ChangeIsOrderly(s.active.value, h, s.clock);
          UpdateIsSound(s, Changed(s.active.value, h, s.clock));
        }
    }
  }

  /**
   * After any events of any Tickets the history holds exactly one snapshot for each started Invocation, in the
   * order of the starts, every slot's snapshot is current, and in every snapshot at most one recovery wait and at
   * most the last segment is open.
   */
  lemma {:induction false} RecordsStaySound(happenings: seq<Happening>)
    ensures Sound(Recorded(happenings)) && |Recorded(happenings).history| == Starts(happenings)
  {
    if happenings != [] {
      RecordsStaySound(happenings[..|happenings| - 1]);
      StepIsSound(Recorded(happenings[..|happenings| - 1]), happenings[|happenings| - 1]);
    }
  }

  /** No event ever reorders, renames or drops a snapshot. */
  lemma {:induction false} HistoryOnlyGrows(happenings: seq<Happening>, n: nat)
    requires n <= |happenings|
    ensures Keys(Recorded(happenings[..n]).history) <= Keys(Recorded(happenings).history)
    decreases |happenings|
  {
    hide Next;
    var last := |happenings| - 1;
    if n == |happenings| {
      assert happenings[..n] == happenings;
    } else {
      assert happenings[..last][..n] == happenings[..n];
      HistoryOnlyGrows(happenings[..last], n);
      RecordsStaySound(happenings[..last]);
      StepIsSound(Recorded(happenings[..last]), happenings[last]);
    }
  }

  /** Once the executors are gone an Invocation is left open exactly if it belongs to another, completed Ticket. */
  lemma NothingRunsAfterExit(happenings: seq<Happening>, done: set<nat>)
    ensures var before, after := Recorded(happenings), Next(Recorded(happenings), ExecutorsGone(done));
            && (after.active.Some? ==> !Open(after.active.value))
            && Sound(after) && after.parked.Keys == before.parked.Keys
            && forall n :: n in after.parked ==> (Open(after.parked[n]) <==> n in done && Open(before.parked[n]))
  {
    RecordsStaySound(happenings);
    StepIsSound(Recorded(happenings), ExecutorsGone(done));
  }

  // ---- The journal that is updated in place ----

  class Journal {
    var active: Option<Invocation>
    var history: seq<Invocation>
    var clock: nat
    var lane: nat
    var parked: map<nat, Invocation>
    ghost var started: seq<Key>   // every Invocation ever started, in order

    constructor ()
      ensures Valid() && View() == NOTHING && started == []
    {
      active, history, clock, lane, parked, started := None, [], 0, 0, map[], [];
    }

    ghost function View(): Records
      reads this
    {
      Records(active, history, clock, lane, parked)
    }

    ghost predicate Valid()
      reads this
    {
      Sound(View()) && Keys(history) == started
    }

    /** Keep one live snapshot for each started Invocation; the newest entry is looked at first. */
    method Sync(i: Invocation)
      requires DistinctKeys(history)
      modifies this`history
      ensures history == Synced(old(history), i)
    {
      var index := |history|;
      while index > 0
        invariant 0 <= index <= |history| && history == old(history)
        invariant forall k :: index <= k < |history| ==> KeyOf(history[k]) != KeyOf(i)
      {
        index := index - 1;
        if history[index].startedAt == i.startedAt && history[index].subject == i.subject {
          assert Keys(history)[index] == KeyOf(i);
          history := history[index := i];
          return;
        }
      }
      assert KeyOf(i) !in Keys(history);
      history := history + [i];
    }

    /** Replace the active Invocation by a later state of itself. */
    method Update(next: Invocation)
      requires Valid() && active.Some? && KeyOf(next) == KeyOf(active.value)
      requires OneOpenWait(next.waits) && OnlyLastOpen(next.segments)
      modifies this`active, this`history, this`clock
      ensures Valid() && View() == Updated(old(View()), next)
    {
      hide Synced;
      UpdateIsSound(View(), next);
      assert active.value.startedAt < clock;
      Sync(next);
      active := Some(next);
      clock := clock + 1;
      SameLengthKeys(old(history), history);
    }

    /** A restart of the same semantic work inherits what its predecessor had already used up. */
    method Start(subject: nat, semantic: nat, requested: Option<nat>)
      requires Valid()
      modifies this`active, this`history, this`clock, this`started
      ensures Valid() && View() == Next(old(View()), Started(subject, semantic, requested))
      ensures active == Some(StartedFrom(old(active), subject, semantic, requested, old(clock)))
      ensures started == old(started) + [KeyOf(active.value)]
    {
      hide Synced;
      var i := StartedFrom(active, subject, semantic, requested, clock);
      UpdateIsSound(View(), i);
      Sync(i);
      active := Some(i);
      clock := clock + 1;
      started := Keys(history);
      AddedKey(old(history), i);
    }

    method OutputStep(attempt: nat, error: string)
      requires Valid() && active.Some?
      modifies this`active, this`history, this`clock
      ensures Valid() && View() == Updated(old(View()), Changed(old(active).value, Stepped(attempt, error), old(clock)))
      ensures active == Some(old(active).value.(outputAttempt := attempt, validationError := error, interrupted := true))
    {
      Update(active.value.(outputAttempt := attempt, validationError := error, interrupted := true));
    }

    /** The first reported thread is recorded; a thread other than the requested one fails the Invocation. */
    method ThreadStarted(thread: nat) returns (ok: bool)
      requires Valid() && active.Some?
      modifies this`active, this`history, this`clock
      ensures Valid() && View() == Updated(old(View()), Changed(old(active).value, Heard(thread), old(clock)))
      ensures ok == (old(active).value.requested in {None, Some(thread)})
      ensures active == Some(old(active).value.(
                reported := Some(thread), status := if ok then old(active).value.status else Failed))
    {
      ok := active.value.requested in {None, Some(thread)};
      Update(active.value.(reported := Some(thread), status := if ok then active.value.status else Failed));
    }

    method ExecutionStarted()
      requires Valid() && active.Some?
      requires LastEnded(active.value.segments)
      modifies this`active, this`history, this`clock
      ensures Valid() && View() == Updated(old(View()), Changed(old(active).value, Released, old(clock)))
      ensures active == Some(old(active).value.(
                segments := old(active).value.segments + [Segment(Some(old(clock)), None)]))
    {
      Update(active.value.(segments := active.value.segments + [Segment(Some(clock), None)]));
    }

    /** A finish closes the open segment; without one only the end is known. */
    method ExecutionFinished()
      requires Valid() && active.Some?
      modifies this`active, this`history, this`clock
      ensures Valid() && View() == Updated(old(View()), Changed(old(active).value, Reaped, old(clock)))
      ensures active == Some(old(active).value.(segments := Finished(old(active).value.segments, old(clock))))
      ensures active.value.segments != [] && LastEnded(active.value.segments)
    {
      Update(active.value.(segments := Finished(active.value.segments, clock)));
    }

    /** A recoverable failure waits; a wait that is already open is not opened twice. */
    method RecoveryWaiting(capacity: bool, ordinaryUsed: bool, capacityCount: nat)
      requires Valid() && active.Some?
      modifies this`active, this`history, this`clock
      ensures Valid() && View() == Updated(old(View()), Changed(old(active).value, Waits(capacity, ordinaryUsed, capacityCount), old(clock)))
      ensures active == Some(old(active).value.(
                status := Resuming, interrupted := true, ordinaryUsed := ordinaryUsed, capacityCount := capacityCount,
                waits := Opened(old(active).value.waits, capacity, old(clock))))
      ensures exists k :: 0 <= k < |active.value.waits| && active.value.waits[k].endedAt.None?
    {
      OpenedHasOneOpen(active.value.waits, capacity, clock);
      Update(active.value.(status := Resuming, interrupted := true, ordinaryUsed := ordinaryUsed,
                           capacityCount := capacityCount, waits := Opened(active.value.waits, capacity, clock)));
    }

    /** Starting a recovery closes the open wait. */
    method RecoveryStarted()
      requires Valid() && active.Some?
      modifies this`active, this`history, this`clock
      ensures Valid() && View() == Updated(old(View()), Changed(old(active).value, Recovers, old(clock)))
      ensures active == Some(old(active).value.(status := Running, waits := Ended(old(active).value.waits, old(clock))))
    {
      var waits := CloseLastOpen(active.value.waits, clock);
      Update(active.value.(status := Running, waits := waits));
    }

    /** `interrupted` is None when the failure says nothing about it. */
    method Fail(interrupted: Option<bool>)
      requires Valid() && active.Some?
      modifies this`active, this`history, this`clock
      ensures Valid() && View() == Updated(old(View()), Changed(old(active).value, Fails(interrupted), old(clock)))
      ensures active == Some(old(active).value.(
                status := Failed,
                interrupted := if interrupted.Some? then interrupted.value else old(active).value.interrupted))
    {
      Update(active.value.(
        status := Failed, interrupted := if interrupted.Some? then interrupted.value else active.value.interrupted));
    }

    method Complete(thread: nat)
      requires Valid() && active.Some?
      modifies this`active, this`history, this`clock
      ensures Valid() && View() == Updated(old(View()), Changed(old(active).value, Completes(thread), old(clock)))
      ensures active == Some(old(active).value.(status := Completed, reported := Some(thread), interrupted := false))
    {
      Update(active.value.(status := Completed, reported := Some(thread), interrupted := false));
    }

    /** Another Ticket's work is selected. */
    method Select(next: nat)
      requires Valid()
      modifies this`active, this`lane, this`parked
      ensures Valid() && View() == Selected(old(View()), next)
    {
      if next == lane { return; }
      if active.Some? { parked := parked[lane := active.value]; }
      active := if next in parked then Some(parked[next]) else None;
      parked := parked - {next};
      lane := next;
    }

    /** Close one Invocation whose executor is gone. */
    method CloseActive()
      requires Valid()
      modifies this`active, this`history
      ensures Valid() && View() == ActiveClosed(old(View()))
    {
      ActiveClosingIsSound(View());
      if active.Some? && Open(active.value) {
        Sync(active.value.(status := Failed));
        active := Some(active.value.(status := Failed));
      }
    }

    method CloseParked(n: nat, ghost first: Records, ghost done: set<nat>)
      requires Valid() && Sound(first) && n in first.parked && n in done && View() == ParkedClosed(first, done)
      modifies this`history, this`parked
      ensures Valid() && View() == ParkedClosed(first, done - {n})
    {
      hide Synced, ParkedClosed, SlotsAreCurrent, Orderly, StartedBefore;
      ParkedClosingIsSound(first, done);
      ParkedClosingIsSound(first, done - {n});
      ParkedOneMore(first, done, n);
      SameSlots(first, done);
      if Open(parked[n]) {
        Sync(parked[n].(status := Failed));
        parked := parked[n := parked[n].(status := Failed)];
      }
    }

    /** The executors are known to be gone: close what they left running, Ticket by Ticket and then the selected one. */
    method InterruptExited(done: set<nat>)
      requires Valid()
      modifies this`active, this`history, this`parked
      ensures Valid() && View() == Next(old(View()), ExecutorsGone(done))
    {
      hide Synced, ParkedClosed, ActiveClosed, Sound;
      ghost var first := View();
      var todo := parked.Keys - done;
      NothingLost(first, done + todo);
      while todo != {}
        invariant todo <= first.parked.Keys && todo !! done && Valid()
        invariant View() == ParkedClosed(first, done + todo)
        decreases todo
      {
        var n :| n in todo;
        CloseParked(n, first, done + todo);
        assert done + todo - {n} == done + (todo - {n});
        todo := todo - {n};
      }
      assert done + todo == done;
      CloseActive();
    }

    method Happen(h: Happening)
      requires Valid()
      modifies this
      ensures Valid() && View() == Next(old(View()), h)
    {
      hide Sound, Synced;
      match h {
        case Started(subject, semantic, requested) => Start(subject, semantic, requested);
        case Selects(next) => Select(next);
        case ExecutorsGone(done) => InterruptExited(done);
        case Stepped(attempt, error) => if active.Some? { OutputStep(attempt, error); }
        case Heard(thread) => if active.Some? { var _ := ThreadStarted(thread); }
        case Released => if active.Some? && LastEnded(active.value.segments) { ExecutionStarted(); }
        case Reaped => if active.Some? { ExecutionFinished(); }
        case Waits(capacity, ordinaryUsed, capacityCount) =>
          if active.Some? { RecoveryWaiting(capacity, ordinaryUsed, capacityCount); }
        case Recovers => if active.Some? { RecoveryStarted(); }
        case Fails(interrupted) => if active.Some? { Fail(interrupted); }
        case Completes(thread) => if active.Some? { Complete(thread); }
      }
    }
  }

  /** The records, kept event by event, are exactly the ones that the events describe. */
  method RecordAll(happenings: seq<Happening>)
    returns (active: Option<Invocation>, history: seq<Invocation>, parked: map<nat, Invocation>)
    ensures var s := Recorded(happenings); active == s.active && history == s.history && parked == s.parked
  {
    hide Sound, Next;
    var j := new Journal();
    for n := 0 to |happenings|
      invariant fresh(j) && j.Valid() && j.View() == Recorded(happenings[..n])
    {
      assert happenings[..n + 1][..n] == happenings[..n];
      j.Happen(happenings[n]);
    }
    assert happenings[..|happenings|] == happenings;
    active, history, parked := j.active, j.history, j.parked;
  }

  lemma SameSlots(s: Records, done: set<nat>)
    ensures ParkedClosed(s, done).parked.Keys == s.parked.Keys
  {
  }

  lemma NothingLost(s: Records, done: set<nat>)
    requires s.parked.Keys <= done
    ensures ParkedClosed(s, done) == s
  {
    assert ParkedClosed(s, done).history == s.history;
    assert ParkedClosed(s, done).parked == s.parked;
  }

  /** Closing one more Ticket's Invocation updates exactly its snapshot. */
  lemma ParkedOneMore(s: Records, done: set<nat>, n: nat)
    requires Sound(s) && n in s.parked && n in done
    ensures var before, after := ParkedClosed(s, done), ParkedClosed(s, done - {n});
            && before.parked[n] == s.parked[n]
            && after == if Open(s.parked[n]) then
                          before.(parked := before.parked[n := Closed(s.parked[n])],
                                  history := Synced(before.history, Closed(s.parked[n])))
                        else before
  {
    var before, after := ParkedClosed(s, done), ParkedClosed(s, done - {n});
    var k :| 0 <= k < |s.history| && s.history[k] == s.parked[n];
    LostOneMore(s, done, n);
    assert Keys(before.history)[k] == KeyOf(s.parked[n]);
    forall m | 0 <= m < |s.history|
      ensures after.history[m] == if m == k then Closed(before.history[m]) else before.history[m]
      ensures KeyOf(before.history[m]) == KeyOf(s.parked[n]) <==> m == k
    {
      assert KeyOf(before.history[m]) == KeyOf(s.history[m]);
      assert s.history[m] == s.parked[n] <==> m == k;
    }
    assert before.history[k] == s.parked[n];
    if Open(s.parked[n]) {
      assert after.history == Synced(before.history, Closed(s.parked[n]));
    } else {
      assert after.history == before.history;
    }
    assert after.parked == before.parked[n := Closed(s.parked[n])];
  }

  lemma LostOneMore(s: Records, done: set<nat>, n: nat)
    requires SlotsAreCurrent(s) && n in s.parked && n in done
    ensures forall i :: LostBy(s, done - {n}, i) <==> LostBy(s, done, i) || i == s.parked[n]
    ensures !LostBy(s, done, s.parked[n])
  {
    forall i ensures LostBy(s, done - {n}, i) <==> LostBy(s, done, i) || i == s.parked[n] {
      if LostBy(s, done, i) {
        var m :| m in s.parked && m !in done && s.parked[m] == i;
        assert m !in done - {n};
      }
      if i == s.parked[n] { assert n !in done - {n}; }
    }
  }

  /** Close the newest open wait. */
  method CloseLastOpen(waits: seq<Wait>, now: nat) returns (closed: seq<Wait>)
    requires OneOpenWait(waits)
    ensures AllEnded(closed) && closed == Ended(waits, now)
  {
    var index := |waits|;
    while index > 0
      invariant 0 <= index <= |waits|
      invariant forall k :: index <= k < |waits| ==> waits[k].endedAt.Some?
    {
      index := index - 1;
      if waits[index].endedAt.None? {
        return waits[index := waits[index].(endedAt := Some(now))];
      }
    }
    closed := waits;
  }

  lemma SameLengthKeys(before: seq<Invocation>, after: seq<Invocation>)
    requires Keys(before) <= Keys(after) && |before| == |after|
    ensures Keys(before) == Keys(after)
  {
    assert |Keys(before)| == |before| && |Keys(after)| == |after|;
  }

  lemma AddedKey(before: seq<Invocation>, i: Invocation)
    requires KeyOf(i) !in Keys(before)
    ensures Keys(Synced(before, i)) == Keys(before) + [KeyOf(i)]
  {
  }
}
