/**
 * One Agent Invocation with structured output: at most two repairs of an invalid output on the same
 * thread, at most one ordinary recovery per semantic attempt, any number of capacity recoveries, and
 * every counter saved before it is used so that a restart inherits it.
 */
module StructuredOutput {
  import opened Common
  import opened AgentInvocation

  const MAX_OUTPUT_STEPS := 3
  const ERROR_LIMIT := 2000

  /** Where the controller process dies in one turn of the loop, if it does. */
  datatype Death = Lives | BeforeStep | InCall | InWait

  datatype Outcome =
    | Output(thread: nat, verdict: Verdict)
    | Failure(reported: Option<nat>, released: bool, recoverable: bool, capacity: bool,
              started: bool, completedOutput: bool, allowed: bool, stillAllowed: bool)
    | ExitUnknown(reported: Option<nat>, released: bool)
    | NoCredential

  /** An accepted output may have become stale before it is applied. */
  datatype Verdict = Valid(current: bool) | Invalid(error: string)

  /** What one turn of the loop meets. */
  datatype Turn = Turn(current: bool, timeLeft: bool, outcome: Outcome, death: Death)

  datatype WorkerCall = WorkerCall(attempt: nat, thread: Option<nat>, writable: bool)

  datatype Ending = Died | Delivered(thread: nat) | Stopped

  /** The loop's variables. */
  datatype Loop = Loop(
    live: bool, attempt: nat, error: string, ordinaryUsed: bool, capacityCount: nat, thread: Option<nat>)

  function Bounded(error: string): string {
    if |error| <= ERROR_LIMIT then error else error[..ERROR_LIMIT]
  }

  function Reported(o: Outcome): Option<nat> {
    match o
    case Output(thread, _) => Some(thread)
    case Failure(reported, _, _, _, _, _, _, _) => reported
    case ExitUnknown(reported, _) => reported
    case NoCredential => None
  }

  // ---- The specification of the loop ----

  predicate CallsWorker(l: Loop, t: Turn) {
    l.live && t.death != BeforeStep && t.current && t.timeLeft
  }

  function TheCall(l: Loop, writable: bool): WorkerCall {
    WorkerCall(l.attempt, l.thread, writable && l.error == "")
  }

  predicate OtherThread(l: Loop, o: Outcome) {
    l.thread.Some? && Reported(o).Some? && Reported(o) != l.thread
  }

  /** A failed call may be repeated on its thread: once for an ordinary failure, always for capacity. */
  predicate Recovers(l: Loop, o: Outcome) {
    && o.Failure? && o.recoverable && o.allowed
    && (l.thread.Some? || o.reported.Some?)
    && (o.capacity || !l.ordinaryUsed)
  }

  function After(l: Loop, t: Turn): Loop {
    if !CallsWorker(l, t) || OtherThread(l, t.outcome) then l.(live := false)
    else
      var heard := if Reported(t.outcome).Some? then l.(thread := Reported(t.outcome)) else l;
      if t.death == InCall then heard.(live := false)
      else if t.outcome.Output? && t.outcome.verdict.Invalid? then
        heard.(error := Bounded(t.outcome.verdict.error), live := l.attempt < MAX_OUTPUT_STEPS,
               attempt := if l.attempt < MAX_OUTPUT_STEPS then l.attempt + 1 else l.attempt)
      else if Recovers(l, t.outcome) then
        heard.(live := t.death != InWait && t.outcome.stillAllowed,
               ordinaryUsed := l.ordinaryUsed || !t.outcome.capacity,
               capacityCount := l.capacityCount + if t.outcome.capacity then 1 else 0)
      else heard.(live := false)
  }

  function LoopAfter(l: Loop, script: seq<Turn>): Loop {
    if script == [] then l else After(LoopAfter(l, script[..|script| - 1]), script[|script| - 1])
  }

  function Calls(l: Loop, writable: bool, script: seq<Turn>): seq<WorkerCall> {
    if script == [] then []
    else
      var before, t := script[..|script| - 1], script[|script| - 1];
      Calls(l, writable, before)
      + if CallsWorker(LoopAfter(l, before), t) then [TheCall(LoopAfter(l, before), writable)] else []
  }

  /** The loop that a started Invocation begins with. */
  function Resumed(i: Invocation): Loop {
    Loop(true, i.outputAttempt, Bounded(i.validationError), i.ordinaryUsed, i.capacityCount, i.requested)
  }

  // ---- The loop itself ----

  /** The worker process: its release and its reaping are recorded, unless its exit is unknown. */
  method RunWorker(j: Journal, o: Outcome)
    requires j.Valid() && j.active.Some? && LastEnded(j.active.value.segments)
    modifies j
    ensures j.Valid() && j.active.Some? && j.started == old(j.started)
    ensures j.active.value == old(j.active).value.(segments := j.active.value.segments)
    ensures !o.ExitUnknown? ==> LastEnded(j.active.value.segments)
  {
    if o.Output? || (o.Failure? && o.released) || (o.ExitUnknown? && o.released) { j.ExecutionStarted(); }
    if o.Output? || o.Failure? { j.ExecutionFinished(); }
  }

  /** The output step as it was saved last: its number and the error it answers. */
  datatype Checkpoint = Checkpoint(step: nat, error: string)

  function CheckpointOf(i: Invocation): Checkpoint { Checkpoint(i.outputAttempt, i.validationError) }

  /** A turn that gets past the first checks saves its step before anything else. */
  function SavedStep(c: Checkpoint, l: Loop, t: Turn): Checkpoint {
    if l.live && t.death != BeforeStep && t.current then Checkpoint(l.attempt, l.error) else c
  }

  function Checkpoints(c: Checkpoint, l: Loop, script: seq<Turn>): Checkpoint {
    if script == [] then c
    else
      var before := script[..|script| - 1];
      SavedStep(Checkpoints(c, l, before), LoopAfter(l, before), script[|script| - 1])
  }

  /** What a restart would read are exactly the loop's own counters and its last saved step. */
  predicate Saved(i: Invocation, l: Loop, c: Checkpoint) {
    Counted(i, l) && CheckpointOf(i) == c
  }

  predicate Counted(i: Invocation, l: Loop) {
    i.ordinaryUsed == l.ordinaryUsed && i.capacityCount == l.capacityCount
  }

  /** Hear of a thread: a different one than before is an error that is not recorded as a thread. */
  method RememberThread(j: Journal, current: Option<nat>, reported: Option<nat>) returns (ok: bool, thread: Option<nat>)
    requires j.Valid() && j.active.Some? && j.active.value.requested in {None, current}
    modifies j
    ensures j.Valid() && j.active.Some? && j.started == old(j.started)
    ensures ok == !(current.Some? && reported.Some? && current != reported)
    ensures thread == if ok && reported.Some? then reported else current
    ensures j.active == Some(old(j.active).value.(
              reported := if ok && reported.Some? then reported else old(j.active).value.reported))
  {
    thread := current;
    ok := !(current.Some? && reported.Some? && current != reported);
    if ok && reported.Some? {
      var accepted := j.ThreadStarted(reported.value);
      thread := reported;
    }
  }

  lemma NoTurns(c: Checkpoint, l: Loop, writable: bool, script: seq<Turn>)
    ensures LoopAfter(l, script[..0]) == l && Calls(l, writable, script[..0]) == [] && Checkpoints(c, l, script[..0]) == c
  {
  }

  lemma OneMoreTurn(c: Checkpoint, l: Loop, writable: bool, script: seq<Turn>, n: nat)
    requires n < |script|
    ensures Checkpoints(c, l, script[..n + 1]) == SavedStep(Checkpoints(c, l, script[..n]), LoopAfter(l, script[..n]), script[n])
    ensures LoopAfter(l, script[..n + 1]) == After(LoopAfter(l, script[..n]), script[n])
    ensures Calls(l, writable, script[..n + 1]) == Calls(l, writable, script[..n])
              + if CallsWorker(LoopAfter(l, script[..n]), script[n]) then [TheCall(LoopAfter(l, script[..n]), writable)] else []
  {
    assert script[..n + 1][..n] == script[..n];
  }

  method Invoke(j: Journal, writable: bool, script: seq<Turn>) returns (calls: seq<WorkerCall>, end: Ending, ghost final: Loop)
    requires j.Valid() && j.active.Some? && LastEnded(j.active.value.segments)
    requires 1 <= j.active.value.outputAttempt <= MAX_OUTPUT_STEPS
    modifies j
    ensures j.Valid() && j.active.Some? && j.started == old(j.started)
    ensures calls == Calls(Resumed(old(j.active).value), writable, script)
    ensures final == LoopAfter(Resumed(old(j.active).value), script)
    ensures Saved(j.active.value, final, Checkpoints(CheckpointOf(old(j.active).value), Resumed(old(j.active).value), script))
    ensures j.active.value.semantic == old(j.active).value.semantic
    ensures end.Delivered? ==> j.active.value.status == Completed && j.active.value.reported == Some(end.thread)
  {
    hide LoopAfter, Calls, After, Checkpoints, SavedStep;
    ghost var first, saved := Resumed(j.active.value), CheckpointOf(j.active.value);
    var l := Resumed(j.active.value);
    calls, end := [], Died;
    NoTurns(saved, first, writable, script);
    var n := 0;
    while n < |script| && l.live
      invariant 0 <= n <= |script| && j.Valid() && j.active.Some? && j.started == old(j.started)
      invariant l == LoopAfter(first, script[..n]) && calls == Calls(first, writable, script[..n])
      invariant 1 <= l.attempt <= MAX_OUTPUT_STEPS
      invariant Saved(j.active.value, l, Checkpoints(saved, first, script[..n]))
      invariant l.live ==> LastEnded(j.active.value.segments) && j.active.value.requested in {None, l.thread}
      invariant j.active.value.semantic == old(j.active).value.semantic
      invariant l.live ==> !end.Delivered?
      invariant end.Delivered? ==> j.active.value.status == Completed && j.active.value.reported == Some(end.thread)
    {
      var t := script[n];
      OneMoreTurn(saved, first, writable, script, n);
      ghost var before := Checkpoints(saved, first, script[..n]);
      n := n + 1;
      var call := TheCall(l, writable);
      var called;
      l, called, end := OneTurn(j, l, t, before);
      if called { calls := calls + [call]; }
    }
    DeadLoopsStay(saved, first, writable, script, n);
    final := l;
  }

  /** One turn, event by event; the first event after the checks saves the output step. */
  method OneTurn(j: Journal, l: Loop, t: Turn, ghost saved: Checkpoint) returns (next: Loop, called: bool, end: Ending)
    requires j.Valid() && j.active.Some? && l.live && 1 <= l.attempt <= MAX_OUTPUT_STEPS
    requires LastEnded(j.active.value.segments) && Saved(j.active.value, l, saved)
    requires j.active.value.requested in {None, l.thread}
    modifies j
    ensures j.Valid() && j.active.Some? && j.started == old(j.started)
    ensures next == After(l, t) && called == CallsWorker(l, t)
    ensures 1 <= next.attempt <= MAX_OUTPUT_STEPS && (next.live ==> !end.Delivered?)
    ensures Saved(j.active.value, next, SavedStep(saved, l, t))
    ensures called ==> j.active.value.outputAttempt == l.attempt
    ensures next.live ==> LastEnded(j.active.value.segments) && j.active.value.requested in {None, next.thread}
    ensures j.active.value.semantic == old(j.active).value.semantic
    ensures end.Delivered? <==>
              called && t.death in {Lives, InWait} && !OtherThread(l, t.outcome)
              && t.outcome.Output? && t.outcome.verdict == Verdict.Valid(true)
    ensures end.Delivered? ==> j.active.value.status == Completed && j.active.value.reported == Some(end.thread)
  {
    hide Sound;
    next, called, end := l.(live := false), false, Died;
    if t.death == BeforeStep { return; }
    if !t.current {
      j.Fail(None);
      end := Stopped;
      return;
    }
    j.OutputStep(l.attempt, l.error);
    if !t.timeLeft {
      j.Fail(None);
      end := Stopped;
      return;
    }
    called := true;
    next, end := Call(j, l, t);
  }

  /** Run the worker and hear of its thread. */
  method Listen(j: Journal, l: Loop, t: Turn) returns (heard: Loop, ok: bool)
    requires j.Valid() && j.active.Some? && LastEnded(j.active.value.segments)
    requires j.active.value.requested in {None, l.thread}
    modifies j
    ensures j.Valid() && j.active.Some? && j.started == old(j.started)
    ensures ok == !OtherThread(l, t.outcome)
    ensures heard == l.(thread := if ok && Reported(t.outcome).Some? then Reported(t.outcome) else l.thread, live := false)
    ensures j.active.value == old(j.active).value.(segments := j.active.value.segments, reported := j.active.value.reported)
    ensures t.death != InCall && !t.outcome.ExitUnknown? ==> LastEnded(j.active.value.segments)
  {
    hide Sound;
    var thread;
    ok, thread := RememberThread(j, l.thread, Reported(t.outcome));
    heard := l.(thread := thread, live := false);
    if t.death != InCall { RunWorker(j, t.outcome); }
  }

  method Call(j: Journal, l: Loop, t: Turn) returns (next: Loop, end: Ending)
    requires j.Valid() && j.active.Some? && 1 <= l.attempt <= MAX_OUTPUT_STEPS && CallsWorker(l, t)
    requires LastEnded(j.active.value.segments) && Saved(j.active.value, l, Checkpoint(l.attempt, l.error))
    requires j.active.value.requested in {None, l.thread}
    modifies j
    ensures j.Valid() && j.active.Some? && j.started == old(j.started)
    ensures next == After(l, t)
    ensures Saved(j.active.value, next, Checkpoint(l.attempt, l.error))
    ensures next.live ==> LastEnded(j.active.value.segments) && j.active.value.requested in {None, next.thread}
    ensures j.active.value.semantic == old(j.active).value.semantic
    ensures end.Delivered? <==>
              t.death in {Lives, InWait} && !OtherThread(l, t.outcome)
              && t.outcome.Output? && t.outcome.verdict == Verdict.Valid(true)
    ensures end.Delivered? ==> j.active.value.status == Completed && j.active.value.reported == Some(end.thread)
  {
    hide Sound;
    var ok;
    next, ok := Listen(j, l, t);
    end := if t.death == InCall then Died else Stopped;
    if t.death == InCall { return; }
    if !ok {
      j.Fail(None);
      return;
    }
    match t.outcome {
      case NoCredential =>
      case ExitUnknown(_, _) => j.Fail(Some(true));
      case Output(_, verdict) => next, end := Judge(j, next, verdict);
      case Failure(_, _, _, _, _, _, _, _) => next := RecoverOrFail(j, next, t);
    }
  }

  /** Apply a valid, current output; repair an invalid one while steps are left. */
  method Judge(j: Journal, l: Loop, verdict: Verdict) returns (next: Loop, end: Ending)
    requires j.Valid() && j.active.Some? && !l.live && l.thread.Some? && Counted(j.active.value, l)
    modifies j
    ensures j.Valid() && j.active.Some? && j.started == old(j.started)
    ensures next == if verdict.Invalid? then
                      l.(error := Bounded(verdict.error), live := l.attempt < MAX_OUTPUT_STEPS,
                         attempt := if l.attempt < MAX_OUTPUT_STEPS then l.attempt + 1 else l.attempt)
                    else l
    ensures Counted(j.active.value, next)
    ensures j.active.value == old(j.active).value.(
              status := j.active.value.status, interrupted := j.active.value.interrupted, reported := j.active.value.reported)
    ensures end.Delivered? <==> verdict == Verdict.Valid(true)
    ensures end.Delivered? ==> j.active.value.status == Completed && j.active.value.reported == Some(end.thread)
  {
    next, end := l, Stopped;
    match verdict {
      case Valid(true) =>
        j.Complete(l.thread.value);
        end := Delivered(l.thread.value);
      case Valid(false) => j.Fail(None);
      case Invalid(error) =>
        next := next.(error := Bounded(error));
        if l.attempt < MAX_OUTPUT_STEPS {
          next := next.(attempt := l.attempt + 1, live := true);
        } else {
          j.Fail(Some(false));
        }
    }
  }

  /** The recovery counters are saved while the loop waits, before the recovery can start. */
  method RecoverOrFail(j: Journal, l: Loop, t: Turn) returns (next: Loop)
    requires j.Valid() && j.active.Some? && !l.live && t.outcome.Failure? && Counted(j.active.value, l)
    requires t.outcome.reported.Some? ==> l.thread.Some?
    modifies j
    ensures j.Valid() && j.active.Some? && j.started == old(j.started)
    ensures next == if Recovers(l, t.outcome) then
                      l.(live := t.death != InWait && t.outcome.stillAllowed,
                         ordinaryUsed := l.ordinaryUsed || !t.outcome.capacity,
                         capacityCount := l.capacityCount + if t.outcome.capacity then 1 else 0)
                    else l
    ensures Counted(j.active.value, next)
    ensures j.active.value.segments == old(j.active).value.segments
    ensures j.active.value.requested == old(j.active).value.requested
    ensures CheckpointOf(j.active.value) == CheckpointOf(old(j.active).value)
    ensures j.active.value.semantic == old(j.active).value.semantic
  {
    next := l;
    var o := t.outcome;
    if o.recoverable && l.thread.Some? && o.allowed && (o.capacity || !l.ordinaryUsed) {
      if o.capacity {
        next := next.(capacityCount := l.capacityCount + 1);
      } else {
        next := next.(ordinaryUsed := true);
      }
      j.RecoveryWaiting(o.capacity, next.ordinaryUsed, next.capacityCount);
      if t.death == InWait || !o.stillAllowed { return; }
      j.RecoveryStarted();
      next := next.(live := true);
    } else {
      j.Fail(if o.started then Some(!o.completedOutput) else None);
    }
  }

  lemma {:induction false} DeadLoopsStay(c: Checkpoint, l: Loop, writable: bool, script: seq<Turn>, n: nat)
    requires n <= |script| && (n < |script| ==> !LoopAfter(l, script[..n]).live)
    ensures LoopAfter(l, script) == LoopAfter(l, script[..n])
    ensures Calls(l, writable, script) == Calls(l, writable, script[..n])
    ensures Checkpoints(c, l, script) == Checkpoints(c, l, script[..n])
    decreases |script|
  {
    if n == |script| {
      assert script[..n] == script;
    } else {
      var before := script[..|script| - 1];
      assert before[..n] == script[..n];
      if n < |before| { DeadLoopsStay(c, l, writable, before, n); } else { assert before == script[..n]; }
    }
  }

  // ---- What the loop guarantees ----

  function OrdinaryRecoveries(first: Loop, l: Loop): nat {
    if l.ordinaryUsed && !first.ordinaryUsed then 1 else 0
  }

  /** Every call after the first is paid for by an output step or by a recovery. */
  predicate Paid(first: Loop, l: Loop, calls: seq<WorkerCall>) {
    && first.attempt <= l.attempt <= MAX_OUTPUT_STEPS
    && first.capacityCount <= l.capacityCount && (first.ordinaryUsed ==> l.ordinaryUsed)
    && var recoveries := OrdinaryRecoveries(first, l) + (l.capacityCount - first.capacityCount);
    && (l.live ==> |calls| == (l.attempt - first.attempt) + recoveries)
    && (calls == [] ==> l.attempt == first.attempt)
    && (calls != [] ==>
          && first.attempt <= calls[|calls| - 1].attempt <= l.attempt
          && l.attempt - 1 <= calls[|calls| - 1].attempt
          && |calls| <= 1 + (calls[|calls| - 1].attempt - first.attempt) + recoveries)
  }

  lemma {:induction false} CallsArePaid(first: Loop, writable: bool, script: seq<Turn>)
    requires first.live && first.attempt <= MAX_OUTPUT_STEPS
    ensures Paid(first, LoopAfter(first, script), Calls(first, writable, script))
  {
    if script != [] {
      CallsArePaid(first, writable, script[..|script| - 1]);
    }
  }

  /** Starting fresh: at most four worker calls plus one for every capacity failure that was recovered. */
  lemma AtMostFourCallsPlusCapacity(thread: Option<nat>, writable: bool, script: seq<Turn>)
    ensures var first := Loop(true, 1, "", false, 0, thread);
            |Calls(first, writable, script)| <= 4 + LoopAfter(first, script).capacityCount
  {
    CallsArePaid(Loop(true, 1, "", false, 0, thread), writable, script);
  }

  predicate ThreadsAgree(first: Loop, l: Loop, calls: seq<WorkerCall>) {
    && (first.thread.Some? ==> l.thread == first.thread)
    && (forall k :: 0 <= k < |calls| && calls[k].thread.Some? ==> calls[k].thread == l.thread)
    && (forall k, m :: 0 <= k < m < |calls| && calls[k].thread.Some? ==> calls[m].thread == calls[k].thread)
  }

  /** Once a thread is known, every later call uses it, and the loop never leaves it. */
  lemma {:induction false} OneThread(first: Loop, writable: bool, script: seq<Turn>)
    ensures ThreadsAgree(first, LoopAfter(first, script), Calls(first, writable, script))
  {
    if script != [] {
      OneThread(first, writable, script[..|script| - 1]);
    }
  }

  /** The turn reports a thread, and the controller lives to hear of it. */
  lemma HeardThreadIsKept(first: Loop, writable: bool, script: seq<Turn>, n: nat)
    requires n < |script| && CallsWorker(LoopAfter(first, script[..n]), script[n])
    requires Reported(script[n].outcome).Some? && !OtherThread(LoopAfter(first, script[..n]), script[n].outcome)
    ensures LoopAfter(first, script[..n + 1]).thread == Reported(script[n].outcome)
    ensures LoopAfter(first, script).thread == Reported(script[n].outcome)
  {
    assert script[..n + 1][..n] == script[..n];
    ThreadStays(first, script, n + 1);
  }

  lemma {:induction false} ThreadStays(first: Loop, script: seq<Turn>, n: nat)
    requires n <= |script| && LoopAfter(first, script[..n]).thread.Some?
    ensures LoopAfter(first, script).thread == LoopAfter(first, script[..n]).thread
    decreases |script|
  {
    if n < |script| {
      assert script[..|script| - 1][..n] == script[..n];
      ThreadStays(first, script[..|script| - 1], n);
    } else {
      assert script[..n] == script;
    }
  }

  lemma {:induction false} LiveTurnsCall(first: Loop, writable: bool, script: seq<Turn>)
    requires first.live
    ensures |Calls(first, writable, script)| <= |script|
    ensures LoopAfter(first, script).live ==> |Calls(first, writable, script)| == |script|
  {
    if script != [] {
      hide After, TheCall;
      var before := script[..|script| - 1];
      LiveTurnsCall(first, writable, before);
      OnlyCallsLive(LoopAfter(first, before), script[|before|]);
    }
  }

  /** Turns are calls until the loop ends: the call at `k` is the one that turn `k` makes. */
  lemma {:induction false} CallIsTurn(first: Loop, writable: bool, script: seq<Turn>, k: nat)
    requires first.live && k < |Calls(first, writable, script)|
    ensures k < |script| && CallsWorker(LoopAfter(first, script[..k]), script[k])
    ensures Calls(first, writable, script)[k] == TheCall(LoopAfter(first, script[..k]), writable)
    decreases |script|
  {
    hide After, TheCall;
    var before := script[..|script| - 1];
    LiveTurnsCall(first, writable, before);
    OnlyCallsLive(LoopAfter(first, before), script[|before|]);
    if k < |Calls(first, writable, before)| {
      CallIsTurn(first, writable, before, k);
      assert before[..k] == script[..k];
    } else {
      assert script[..k] == before;
    }
  }

  lemma OnlyCallsLive(l: Loop, t: Turn)
    ensures After(l, t).live ==> CallsWorker(l, t)
    ensures CallsWorker(l, t) ==> l.live
  {
  }

  /** Every call after the one in which a worker reported its thread uses exactly that thread. */
  lemma LaterCallsUseTheReportedThread(first: Loop, writable: bool, script: seq<Turn>, n: nat, m: nat)
    requires first.live && n < m < |Calls(first, writable, script)| && n < |script| && Reported(script[n].outcome).Some?
    ensures Calls(first, writable, script)[m].thread == Reported(script[n].outcome)
  {
    CallIsTurn(first, writable, script, n);
    CallIsTurn(first, writable, script, n + 1);
    CallIsTurn(first, writable, script, m);
    var turns := script[..m];
    assert turns[..n] == script[..n] && turns[..n + 1] == script[..n + 1] && turns[n] == script[n];
    if OtherThread(LoopAfter(first, script[..n]), script[n].outcome) {
      OneMoreTurn(Checkpoint(0, ""), first, writable, turns, n);
      assert false;
    } else {
      HeardThreadIsKept(first, writable, turns, n);
    }
  }

  /** The text of the latest invalid output among some turns, or the one the loop began with. */
  function LatestError(error: string, turns: seq<Turn>): string {
    if turns == [] then error
    else
      var o := turns[|turns| - 1].outcome;
      if o.Output? && o.verdict.Invalid? then Bounded(o.verdict.error) else LatestError(error, turns[..|turns| - 1])
  }

  lemma {:induction false} LiveLoopsKeepTheLatestError(first: Loop, script: seq<Turn>)
    requires LoopAfter(first, script).live
    ensures LoopAfter(first, script).error == LatestError(first.error, script)
  {
    if script != [] {
      LiveLoopsKeepTheLatestError(first, script[..|script| - 1]);
    }
  }

  /** Call by call: it may write exactly when the checkout may be written and the latest validation error is empty. */
  lemma WritableExactlyWithoutError(first: Loop, writable: bool, script: seq<Turn>, k: nat)
    requires first.live && k < |Calls(first, writable, script)| && k < |script|
    ensures Calls(first, writable, script)[k].writable <==> writable && LatestError(first.error, script[..k]) == ""
  {
    CallIsTurn(first, writable, script, k);
    LiveLoopsKeepTheLatestError(first, script[..k]);
  }

  predicate ErrorsSaySomething(script: seq<Turn>) {
    forall k :: 0 <= k < |script| && script[k].outcome.Output? && script[k].outcome.verdict.Invalid? ==>
      script[k].outcome.verdict.error != ""
  }

  /** When every validation error has a text, no call after an invalid output may write to the checkout. */
  lemma RepairsAreReadOnly(first: Loop, writable: bool, script: seq<Turn>, n: nat, k: nat)
    requires ErrorsSaySomething(script) && first.live && n < k < |Calls(first, writable, script)| && k < |script|
    requires script[n].outcome.Output? && script[n].outcome.verdict.Invalid?
    ensures !Calls(first, writable, script)[k].writable
  {
    WritableExactlyWithoutError(first, writable, script, k);
    SomeError(first.error, script[..k], n);
  }

  lemma {:induction false} SomeError(error: string, turns: seq<Turn>, n: nat)
    requires ErrorsSaySomething(turns) && n < |turns| && turns[n].outcome.Output? && turns[n].outcome.verdict.Invalid?
    ensures LatestError(error, turns) != ""
    decreases |turns|
  {
    var last := |turns| - 1;
    var o := turns[last].outcome;
    if !(o.Output? && o.verdict.Invalid?) {
      assert turns[..last][n] == turns[n];
      SomeError(error, turns[..last], n);
    }
  }

  function BadOutput(error: string): Turn {
    Turn(true, true, Output(7, Invalid(error)), Lives)
  }

  /** A later validation error without a text makes the next repair writable again. */
  lemma {:induction false} EmptyErrorReopensCheckout()
    ensures var calls := Calls(Loop(true, 1, "", false, 0, None), true, [BadOutput("x"), BadOutput(""), BadOutput("y")]);
            |calls| == 3 && calls[0].writable && !calls[1].writable && calls[2].writable
  {
    var first, script := Loop(true, 1, "", false, 0, None), [BadOutput("x"), BadOutput(""), BadOutput("y")];
    assert script[..2] == [BadOutput("x"), BadOutput("")];
    assert script[..2][..1] == [BadOutput("x")];
    assert script[..2][..1][..0] == [];
    assert LoopAfter(first, []) == first && Calls(first, true, []) == [];
    assert LoopAfter(first, [BadOutput("x")]) == Loop(true, 2, "x", false, 0, Some(7));
    assert LoopAfter(first, script[..2]) == Loop(true, 3, "", false, 0, Some(7));
  }

  // ---- Restarts ----

  /** One restart: the turns its loop gets, and whether its process is found dead afterwards. */
  datatype Session = Session(requested: Option<nat>, script: seq<Turn>, foundDead: bool)

  /** What became of one session: the calls it made, and the Invocation it left in the store. */
  datatype Played = Played(calls: seq<WorkerCall>, end: Invocation)

  /** The Invocation that a session of this work starts, whenever and for whomever it is started. */
  function StartOf(previous: Option<Invocation>, semantic: nat, s: Session): Invocation {
    StartedFrom(previous, 0, semantic, s.requested, 0)
  }

  /** The session starts from what its predecessor saved, makes exactly its calls and saves its own counters. */
  predicate Follows(previous: Option<Invocation>, p: Played, semantic: nat, writable: bool, s: Session) {
    var start := StartOf(previous, semantic, s);
    && p.calls == Calls(Resumed(start), writable, s.script)
    && Saved(p.end, LoopAfter(Resumed(start), s.script), Checkpoints(CheckpointOf(start), Resumed(start), s.script))
    && p.end.semantic == semantic
  }

  function Before(played: seq<Played>, n: nat): Option<Invocation>
    requires n <= |played|
  {
    if n == 0 then None else Some(played[n - 1].end)
  }

  predicate AllFollow(played: seq<Played>, semantic: nat, writable: bool, sessions: seq<Session>) {
    && |played| == |sessions|
    && forall n :: 0 <= n < |played| ==> Follows(Before(played, n), played[n], semantic, writable, sessions[n])
  }

  function TotalCalls(played: seq<Played>): nat {
    if played == [] then 0 else TotalCalls(played[..|played| - 1]) + |played[|played| - 1].calls|
  }

  /** The saved step is never behind the last call, and never beyond the loop's. */
  lemma {:induction false} StepFollowsCalls(c: Checkpoint, first: Loop, writable: bool, script: seq<Turn>)
    requires first.live && c.step == first.attempt <= MAX_OUTPUT_STEPS
    ensures var calls, saved := Calls(first, writable, script), Checkpoints(c, first, script);
            && first.attempt <= saved.step <= LoopAfter(first, script).attempt <= MAX_OUTPUT_STEPS
            && (calls != [] ==> calls[|calls| - 1].attempt <= saved.step)
  {
    if script != [] {
      StepFollowsCalls(c, first, writable, script[..|script| - 1]);
    }
  }

  /** One session is paid for by what it adds to the saved counters, plus one call. */
  lemma SessionIsPaid(previous: Option<Invocation>, p: Played, semantic: nat, writable: bool, s: Session)
    requires Follows(previous, p, semantic, writable, s)
    requires SameWork(previous, semantic) ==> 1 <= previous.value.outputAttempt <= MAX_OUTPUT_STEPS
    ensures var start := StartOf(previous, semantic, s);
            && 1 <= start.outputAttempt <= p.end.outputAttempt <= MAX_OUTPUT_STEPS
            && start.capacityCount <= p.end.capacityCount && (start.ordinaryUsed ==> p.end.ordinaryUsed)
            && |p.calls| <= 1 + (p.end.outputAttempt - start.outputAttempt) + (p.end.capacityCount - start.capacityCount)
                            + (if p.end.ordinaryUsed && !start.ordinaryUsed then 1 else 0)
            && (previous.None? ==> start.outputAttempt == 1 && start.capacityCount == 0 && !start.ordinaryUsed)
            && (SameWork(previous, semantic) ==>
                  && start.outputAttempt == previous.value.outputAttempt && start.capacityCount == previous.value.capacityCount
                  && start.ordinaryUsed == previous.value.ordinaryUsed)
            && p.end.semantic == semantic
  {
    var start := StartOf(previous, semantic, s);
    CallsArePaid(Resumed(start), writable, s.script);
    StepFollowsCalls(CheckpointOf(start), Resumed(start), writable, s.script);
  }

  lemma EarlierFollow(played: seq<Played>, semantic: nat, writable: bool, sessions: seq<Session>, last: nat)
    requires AllFollow(played, semantic, writable, sessions) && last < |played|
    ensures AllFollow(played[..last], semantic, writable, sessions[..last])
    ensures Follows(Before(played, last), played[last], semantic, writable, sessions[last])
    ensures last > 0 ==> played[last - 1].end.semantic == semantic
  {
    forall n | 0 <= n < last ensures Follows(Before(played[..last], n), played[..last][n], semantic, writable, sessions[..last][n]) {
      assert Follows(Before(played, n), played[n], semantic, writable, sessions[n]);
    }
    if last > 0 { assert Follows(Before(played, last - 1), played[last - 1], semantic, writable, sessions[last - 1]); }
  }

  /** What the last of some sessions left does not fall behind what any earlier one left. */
  predicate Furthest(played: seq<Played>) {
    forall n :: 0 <= n < |played| ==>
      && 1 <= played[n].end.outputAttempt <= played[|played| - 1].end.outputAttempt <= MAX_OUTPUT_STEPS
      && played[n].end.capacityCount <= played[|played| - 1].end.capacityCount
      && (played[n].end.ordinaryUsed ==> played[|played| - 1].end.ordinaryUsed)
  }

  function PaidFor(end: Invocation): nat
    requires end.outputAttempt >= 1
  {
    (end.outputAttempt - 1) + end.capacityCount + (if end.ordinaryUsed then 1 else 0)
  }

  /**
   * Any number of sessions of one semantic attempt that stays in its slot: the saved output step never decreases
   * and stays within 1..3, the capacity count never decreases, the ordinary recovery is used at most once, and all
   * sessions together call the worker at most once each plus three plus once for every recovered capacity failure.
   */
  lemma {:induction false} SessionsArePaid(played: seq<Played>, semantic: nat, writable: bool, sessions: seq<Session>)
    requires AllFollow(played, semantic, writable, sessions) && sessions != []
    ensures Furthest(played)
    ensures TotalCalls(played) <= |sessions| + PaidFor(played[|played| - 1].end)
    ensures TotalCalls(played) <= 3 + |sessions| + played[|played| - 1].end.capacityCount
  {
    hide Follows, StartedFrom, AllFollow;
    var last := |played| - 1;
    assert |played| == |sessions| by { SameLength(played, semantic, writable, sessions); }
    EarlierFollow(played, semantic, writable, sessions, last);
    if last > 0 {
      SessionsArePaid(played[..last], semantic, writable, sessions[..last]);
      assert played[..last][last - 1] == played[last - 1];
    } else {
      assert TotalCalls(played[..last]) == 0;
    }
    SessionIsPaid(Before(played, last), played[last], semantic, writable, sessions[last]);
    forall n | 0 <= n < last ensures played[..last][n] == played[n] {}
  }

  lemma SameLength(played: seq<Played>, semantic: nat, writable: bool, sessions: seq<Session>)
    requires AllFollow(played, semantic, writable, sessions)
    ensures |played| == |sessions|
  {
  }

  /** The sessions, run one after the other, are such a chain. */
  method Sessions(subject: nat, semantic: nat, writable: bool, sessions: seq<Session>) returns (played: seq<Played>)
    ensures AllFollow(played, semantic, writable, sessions)
  {
    hide Follows, StartedFrom;
    var j := new Journal();
    played := [];
    for n := 0 to |sessions|
      invariant fresh(j) && j.Valid() && |played| == n && j.active == Before(played, n)
      invariant SameWork(j.active, semantic) ==> 1 <= j.active.value.outputAttempt <= MAX_OUTPUT_STEPS
      invariant forall k :: 0 <= k < n ==> Follows(Before(played, k), played[k], semantic, writable, sessions[k])
    {
      var p := RunSession(j, subject, semantic, writable, sessions[n]);
      SessionIsPaid(Before(played, n), p, semantic, writable, sessions[n]);
      played := played + [p];
    }
  }

  /** One session from its start. */
  method RunSession(j: Journal, subject: nat, semantic: nat, writable: bool, s: Session) returns (p: Played)
    requires j.Valid()
    requires SameWork(j.active, semantic) ==> 1 <= j.active.value.outputAttempt <= MAX_OUTPUT_STEPS
    modifies j
    ensures j.Valid() && j.active == Some(p.end) && |j.started| == |old(j.started)| + 1
    ensures Follows(old(j.active), p, semantic, writable, s)
  {
    hide Calls, LoopAfter, Checkpoints;
    j.Start(subject, semantic, s.requested);
    ghost var start := j.active.value;
    assert Resumed(start) == Resumed(StartOf(old(j.active), semantic, s));
    var calls, end, final := Invoke(j, writable, s.script);
    if s.foundDead { j.CloseActive(); }
    p := Played(calls, j.active.value);
  }
}
