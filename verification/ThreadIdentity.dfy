/**
 * Which agent threads a change has used: a Reviewer thread is never a Development thread, past or
 * present, and rotation gives every new attempt a thread of its own.
 */
module ThreadIdentity {
  import opened Common

  type ThreadId = string

  datatype Policy = Reuse | NewPerAttempt

  /** A returned Development thread waits here until its stage consumes it. On a fresh request no thread was named. */
  datatype Returned = Returned(thread: ThreadId, replaced: Option<ThreadId>, onFreshRequest: bool)

  predicate Blank(t: ThreadId) { forall k :: 0 <= k < |t| ==> t[k] in " \t\n\r" }

  predicate Distinct(s: seq<ThreadId>) { forall i, j :: 0 <= i < j < |s| ==> s[i] != s[j] }

  // ---- What one step does to the books ----

  /** The thread facts of a change. `used` lists every Development thread that was ever recorded, in order. */
  datatype Book = Book(
    current: Option<ThreadId>, history: seq<ThreadId>, reviewers: seq<ThreadId>,
    resumeThread: Option<ThreadId>, reviewResumes: bool, used: seq<ThreadId>)

  datatype Step =
    | Attempt(isNew: bool, thread: ThreadId, replaced: Option<ThreadId>)  // one worker session of Development
    | NewSession(thread: ThreadId, replaced: Option<ThreadId>)            // an explicit new thread for the same attempt
    | Review(thread: ThreadId, newThread: bool)
    | ResumeReview(resumeThread: Option<ThreadId>, resumes: bool)

  predicate IsDeveloper(b: Book, t: ThreadId) { b.current == Some(t) || t in b.history }

  /** Allocation: only a new attempt under the rotating policy puts the current thread away. */
  function Rotated(policy: Policy, b: Book, isNew: bool): Book {
    if !isNew || policy != NewPerAttempt then b
    else b.(current := None,
            history := b.history + if b.current.Some? && b.current.value !in b.history then [b.current.value] else [])
  }

  predicate AcceptsDeveloper(b: Book, requested: Option<ThreadId>, thread: ThreadId, replaced: Option<ThreadId>) {
    && thread !in b.reviewers && (requested.None? ==> thread !in b.history) && !Blank(thread)
    && (b.current.Some? && b.current.value != thread ==> replaced == b.current)
  }

  function Recorded(b: Book, thread: ThreadId): Book {
    b.(current := Some(thread), used := b.used + [thread],
       history := b.history + if b.current.Some? && b.current.value != thread then [b.current.value] else [])
  }

  function Developed(b: Book, requested: Option<ThreadId>, thread: ThreadId, replaced: Option<ThreadId>): Book {
    if AcceptsDeveloper(b, requested, thread, replaced) then Recorded(b, thread) else b
  }

  function Latest(b: Book): Option<ThreadId> {
    if b.resumeThread.Some? && !Blank(b.resumeThread.value) then b.resumeThread
    else if b.reviewers != [] then Some(b.reviewers[|b.reviewers| - 1])
    else None
  }

  predicate Resumes(b: Book) { b.reviewResumes || (b.resumeThread.Some? && b.resumeThread.value != "") }

  predicate AcceptsReviewer(b: Book, thread: ThreadId, newThread: bool) {
    && !IsDeveloper(b, thread) && !Blank(thread)
    && (Resumes(b) && !newThread ==> Some(thread) == Latest(b))
    && (thread in b.reviewers ==> Resumes(b))
  }

  function Reviewed(b: Book, thread: ThreadId, newThread: bool): Book {
    if AcceptsReviewer(b, thread, newThread) && thread !in b.reviewers then b.(reviewers := b.reviewers + [thread]) else b
  }

  function Next(policy: Policy, b: Book, step: Step): Book {
    match step
    case Attempt(isNew, thread, replaced) =>
      var chosen := Rotated(policy, b, isNew);
      Developed(chosen, chosen.current, thread, replaced)
    case NewSession(thread, replaced) => Developed(b, None, thread, replaced)
    case Review(thread, newThread) => Reviewed(b, thread, newThread)
    case ResumeReview(resumeThread, resumes) => b.(resumeThread := resumeThread, reviewResumes := resumes)
  }

  function Fold(policy: Policy, steps: seq<Step>): Book {
    if steps == [] then Book(None, [], [], None, false, [])
    else Next(policy, Fold(policy, steps[..|steps| - 1]), steps[|steps| - 1])
  }

  // ---- What every run keeps ----

  ghost predicate Independent(b: Book) {
    && (forall t :: t in b.used <==> IsDeveloper(b, t))
    && Distinct(b.reviewers)
    && forall t :: t in b.reviewers ==> !IsDeveloper(b, t)
  }

  lemma StepKeepsIndependence(policy: Policy, b: Book, step: Step)
    requires Independent(b)
    ensures Independent(Next(policy, b, step)) && b.used <= Next(policy, b, step).used
  {
    if step.Attempt? {
      assert Independent(Rotated(policy, b, step.isNew));
    }
  }

  /** Reviewer threads are distinct and never Development threads, current or past, in every run. */
  lemma {:induction false} ThreadsStayIndependent(policy: Policy, steps: seq<Step>)
    ensures Independent(Fold(policy, steps))
    ensures forall t :: t in Fold(policy, steps).reviewers ==> t !in Fold(policy, steps).used
  {
    if steps != [] {
      ThreadsStayIndependent(policy, steps[..|steps| - 1]);
      StepKeepsIndependence(policy, Fold(policy, steps[..|steps| - 1]), steps[|steps| - 1]);
    }
  }

  /** A thread accepted for a request that names none was never used before, exactly if it is not the current one. */
  lemma FreshExactlyUnlessCurrent(b: Book, thread: ThreadId, replaced: Option<ThreadId>)
    requires Independent(b) && AcceptsDeveloper(b, None, thread, replaced)
    ensures thread !in b.used <==> b.current != Some(thread)
  {
  }

  /** Under the rotating policy every new attempt records a thread that no earlier session ever used. */
  lemma NewAttemptsUseNewThreads(steps: seq<Step>, k: nat)
    requires k < |steps| && steps[k].Attempt? && steps[k].isNew
    ensures var before, after := Fold(NewPerAttempt, steps[..k]).used, Fold(NewPerAttempt, steps[..k + 1]).used;
            after == before || (after == before + [steps[k].thread] && steps[k].thread !in before)
  {
    ThreadsStayIndependent(NewPerAttempt, steps[..k]);
    assert steps[..k + 1][..k] == steps[..k];
    var chosen := Rotated(NewPerAttempt, Fold(NewPerAttempt, steps[..k]), true);
    assert Independent(chosen);
    if AcceptsDeveloper(chosen, chosen.current, steps[k].thread, steps[k].replaced) {
      FreshExactlyUnlessCurrent(chosen, steps[k].thread, steps[k].replaced);
    }
  }

  /** An explicit new thread inside one attempt may turn out to be the current thread again. */
  lemma {:induction false} NewSessionMayRepeat(d: ThreadId)
    requires !Blank(d)
    ensures Fold(NewPerAttempt, [Attempt(true, d, None), NewSession(d, None)]).used == [d, d]
  {
    var steps := [Attempt(true, d, None), NewSession(d, None)];
    assert steps[..1] == [Attempt(true, d, None)] && steps[..1][..0] == [];
    assert Fold(NewPerAttempt, steps[..1]) == Book(Some(d), [], [], None, false, [d]);
  }

  class Threads {
    const policy: Policy
    var current: Option<ThreadId>
    var history: seq<ThreadId>             // replaced or rotated Development threads
    var reviewers: seq<ThreadId>
    var resumeThread: Option<ThreadId>     // the Reviewer thread an explicit resume asks for
    var reviewResumes: bool                // a human blocker or a failed review is being resumed
    var returned: Option<Returned>
    ghost var used: seq<ThreadId>

    constructor (policy: Policy)
      ensures this.policy == policy && Valid() && returned == None && View() == Fold(policy, [])
    {
      this.policy := policy;
      current, history, reviewers, resumeThread, reviewResumes, returned, used := None, [], [], None, false, None, [];
    }

    ghost function View(): Book
      reads this
    {
      Book(current, history, reviewers, resumeThread, reviewResumes, used)
    }

    ghost predicate Valid()
      reads this
    {
      && Independent(View())
      && (returned.Some? ==>
            AcceptsDeveloper(View(), if returned.value.onFreshRequest then None else Some(returned.value.thread),
                             returned.value.thread, returned.value.replaced))
    }

    /** Allocate an attempt: only a new one under the rotating policy puts the current thread away. */
    method SelectThread(newAttempt: bool)
      requires Valid() && returned.None?
      modifies this`current, this`history
      ensures Valid() && View() == Rotated(policy, old(View()), newAttempt)
      ensures forall t :: IsDeveloper(View(), t) <==> IsDeveloper(old(View()), t)
    {
      if !newAttempt || policy != NewPerAttempt { return; }
      if current.Some? && current.value !in history {
        history := history + [current.value];
      } else {
        assert history + [] == history;
      }
      current := None;
    }

    /** Validate a worker's thread before its result is stored; `requested` is the thread it was asked to use. */
    method StoreDevelopment(requested: Option<ThreadId>, thread: ThreadId, replaced: Option<ThreadId>) returns (ok: bool)
      requires Valid() && returned.None?
      modifies this`returned
      ensures Valid()
      ensures ok == AcceptsDeveloper(View(), requested, thread, replaced)
      ensures returned == if ok then Some(Returned(thread, replaced, requested.None?)) else None
    {
      if thread in reviewers { return false; }
      if requested.None? && thread in history { return false; }
      if Blank(thread) { return false; }
      if current.Some? && current.value != thread && replaced != current { return false; }
      returned := Some(Returned(thread, replaced, requested.None?));
      ok := true;
    }

    /** The stage consumes the returned thread. On a fresh request it is new exactly unless it is the current one. */
    method RecordDevelopment()
      requires Valid() && returned.Some?
      modifies this`current, this`history, this`returned, this`used
      ensures Valid() && returned == None
      ensures View() == Recorded(old(View()), old(returned).value.thread)
      ensures old(returned).value.onFreshRequest ==>
                (old(returned).value.thread !in old(used) <==> old(current) != Some(old(returned).value.thread))
    {
      var thread := returned.value.thread;
      if current.Some? && current.value != thread {
        history := history + [current.value];
      } else {
        assert history + [] == history;
      }
      used := used + [thread];
      current, returned := Some(thread), None;
    }

    /** The Reviewer thread that a resume would use. */
    function LatestReviewer(): (r: Option<ThreadId>)
      reads this
      ensures r == Latest(View())
    {
      if resumeThread.Some? && !Blank(resumeThread.value) then resumeThread
      else if reviewers != [] then Some(reviewers[|reviewers| - 1])
      else None
    }

    /** A review needs a thread of its own, or the latest one when it is resumed. */
    method RecordReviewer(thread: ThreadId, newThread: bool) returns (ok: bool)
      requires Valid() && returned.None?
      modifies this`reviewers
      ensures Valid()
      ensures ok == AcceptsReviewer(old(View()), thread, newThread)
      ensures View() == Reviewed(old(View()), thread, newThread)
    {
      if current == Some(thread) || thread in history { return false; }
      var resumed := reviewResumes || (resumeThread.Some? && resumeThread.value != "");
      if resumed && !newThread && Some(thread) != LatestReviewer() { return false; }
      if Blank(thread) || (thread in reviewers && !resumed) { return false; }
      if thread !in reviewers { reviewers := reviewers + [thread]; }
      ok := true;
    }

    /** One step of a change: a Development session, a review, or the request to resume one. */
    method Take(step: Step)
      requires Valid() && returned.None?
      modifies this
      ensures Valid() && returned.None? && View() == Next(policy, old(View()), step)
    {
      match step {
        case Attempt(isNew, thread, replaced) =>
          SelectThread(isNew);
          var ok := StoreDevelopment(current, thread, replaced);
          if ok { RecordDevelopment(); }
        case NewSession(thread, replaced) =>
          var ok := StoreDevelopment(None, thread, replaced);
          if ok { RecordDevelopment(); }
        case Review(thread, newThread) =>
          var ok := RecordReviewer(thread, newThread);
        case ResumeReview(thread, resumes) =>
          resumeThread, reviewResumes := thread, resumes;
      }
    }
  }

  /** The stages, run step by step, leave exactly the books that the steps describe. */
  method Run(policy: Policy, steps: seq<Step>)
    returns (current: Option<ThreadId>, history: seq<ThreadId>, reviewers: seq<ThreadId>)
    ensures var b := Fold(policy, steps); current == b.current && history == b.history && reviewers == b.reviewers
  {
    var t := new Threads(policy);
    for n := 0 to |steps|
      invariant fresh(t) && t.Valid() && t.policy == policy && t.returned.None?
      invariant t.View() == Fold(policy, steps[..n])
    {
      assert steps[..n + 1][..n] == steps[..n];
      t.Take(steps[n]);
    }
    assert steps[..|steps|] == steps;
    current, history, reviewers := t.current, t.history, t.reviewers;
  }
}
