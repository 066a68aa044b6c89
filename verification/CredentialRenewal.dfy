/**
 * The renewal thread of a short-lived credential: exponential back-off inside a retry window. Time is
 * real-valued; every wake-up, spurious or not, reads an arbitrary later clock value.
 */
module CredentialRenewal {
  import opened Common

  datatype Policy = Policy(margin: real, window: real)

  const DEFAULT_POLICY := Policy(300.0, 600.0)

  /** What a provider call comes to; `Stopped` is a result that arrives after the lifecycle was closed. */
  datatype Outcome = Fails | Renews(expires: real) | Stopped

  /** One turn of the loop: what it sees when it wakes, and what a call made in this turn would return. */
  datatype Wake = Wake(now: real, closed: bool, finished: real, outcome: Outcome)

  datatype Call = Call(at: real, finished: real, failed: bool)

  /** The loop's own variables and the credential it renews. */
  datatype Renewal = Renewal(
    alive: bool, deadline: Option<real>, retryAt: real, delay: real, attempts: nat, expires: real)

  function Fresh(expires: real): Renewal {
    Renewal(true, None, 0.0, 1.0, 0, expires)
  }

  function Min(a: real, b: real): real { if a <= b then a else b }

  function Max(a: real, b: real): real { if a >= b then a else b }

  /** The clock never runs backwards. */
  predicate Monotone(script: seq<Wake>) {
    && (forall k :: 0 <= k < |script| ==> script[k].now <= script[k].finished)
    && (forall k, m :: 0 <= k < m < |script| ==> script[k].finished <= script[m].now)
  }

  // ---- The specification: when a turn calls the provider, and what the call changes ----

  predicate Ends(s: Renewal, w: Wake) {
    w.closed || (s.deadline.Some? && w.now >= s.expires)
  }

  predicate CallsProvider(p: Policy, s: Renewal, w: Wake) {
    && s.alive && !Ends(s, w)
    && w.now >= s.expires - p.margin && w.now >= s.retryAt
    && (s.deadline.Some? ==> w.now < s.deadline.value)
  }

  function Called(p: Policy, s: Renewal, w: Wake): Renewal {
    match w.outcome
    case Fails =>
      var deadline := if s.deadline.Some? then s.deadline.value else w.finished + p.window;
      s.(deadline := Some(deadline), retryAt := Min(w.finished + s.delay, deadline),
         delay := Min(30.0, s.delay * 2.0), attempts := s.attempts + 1)
    case Renews(expires) => Fresh(expires).(retryAt := w.finished + 1.0)
    case Stopped => Fresh(s.expires).(retryAt := w.finished + 1.0)
  }

  function Turn(p: Policy, s: Renewal, w: Wake): Renewal {
    if CallsProvider(p, s, w) then Called(p, s, w)
    else if s.alive && Ends(s, w) then s.(alive := false)
    else s
  }

  function After(p: Policy, expires: real, script: seq<Wake>): Renewal {
    if script == [] then Fresh(expires) else Turn(p, After(p, expires, script[..|script| - 1]), script[|script| - 1])
  }

  function Calls(p: Policy, expires: real, script: seq<Wake>): seq<Call> {
    if script == [] then []
    else
      var before, w := script[..|script| - 1], script[|script| - 1];
      Calls(p, expires, before)
      + if CallsProvider(p, After(p, expires, before), w) then [Call(w.now, w.finished, w.outcome.Fails?)] else []
  }

  // ---- The loop itself ----

  /** The renewal loop, turn by turn, until it returns or the script of wake-ups is used up. */
  method Renew(p: Policy, initial: real, script: seq<Wake>) returns (calls: seq<Call>, attempts: nat, expires: real)
    ensures calls == Calls(p, initial, script)
    ensures attempts == After(p, initial, script).attempts
    ensures expires == After(p, initial, script).expires
  {
    var failureDeadline: Option<real>, retryAt, retryDelay := None, 0.0, 1.0;
    calls, attempts, expires := [], 0, initial;
    var turn := 0;
    while turn < |script|
      invariant 0 <= turn <= |script|
      invariant calls == Calls(p, initial, script[..turn])
      invariant After(p, initial, script[..turn]) ==
                Renewal(true, failureDeadline, retryAt, retryDelay, attempts, expires)
    {
      var w := script[turn];
      assert script[..turn + 1][..turn] == script[..turn];
      turn := turn + 1;
      if w.closed {
        EndedStaysEnded(p, initial, script, turn);
        return;
      }
      if failureDeadline.Some? && w.now >= expires {
        EndedStaysEnded(p, initial, script, turn);
        return;
      }
      if failureDeadline.Some? && w.now >= failureDeadline.value {
        continue;
      }
      var due := Max(expires - p.margin, retryAt);
      if failureDeadline.Some? {
        due := Min(due, expires);
      }
      if w.now < due {
        continue;
      }
      calls := calls + [Call(w.now, w.finished, w.outcome.Fails?)];
      if w.outcome.Fails? {
        attempts := attempts + 1;
        if failureDeadline.None? {
          failureDeadline := Some(w.finished + p.window);
        }
        retryAt := Min(w.finished + retryDelay, failureDeadline.value);
        retryDelay := Min(30.0, retryDelay * 2.0);
      } else {
        if w.outcome.Renews? {
          expires := w.outcome.expires;
        }
        failureDeadline, attempts, retryDelay := None, 0, 1.0;
        retryAt := w.finished + 1.0;
      }
    }
    assert script[..turn] == script;
  }

  lemma {:induction false} EndedStaysEnded(p: Policy, expires: real, script: seq<Wake>, n: nat)
    requires n <= |script| && !After(p, expires, script[..n]).alive
    ensures After(p, expires, script) == After(p, expires, script[..n])
    ensures Calls(p, expires, script) == Calls(p, expires, script[..n])
    decreases |script|
  {
    if n == |script| {
      assert script[..n] == script;
    } else {
      var before := script[..|script| - 1];
      assert before[..n] == script[..n];
      EndedStaysEnded(p, expires, before, n);
    }
  }

  // ---- Back-off ----

  /** How many calls at the end of the log failed one after the other. */
  function Streak(calls: seq<Call>): (n: nat)
    ensures n <= |calls|
    ensures forall k :: |calls| - n <= k < |calls| ==> calls[k].failed
    ensures n < |calls| ==> !calls[|calls| - n - 1].failed
  {
    if calls == [] || !calls[|calls| - 1].failed then 0 else Streak(calls[..|calls| - 1]) + 1
  }

  function Delay(k: nat): real {
    if k == 0 then 1.0 else Min(30.0, Delay(k - 1) * 2.0)
  }

  /** The least time between the end of an episode's first call and its call number `k`, counted from zero. */
  function Offset(k: nat): real {
    if k == 0 then 0.0 else Offset(k - 1) + Delay(k - 1)
  }

  lemma {:induction false} BackOffTable(m: nat)
    ensures Delay(0) == 1.0 && Delay(1) == 2.0 && Delay(2) == 4.0 && Delay(3) == 8.0 && Delay(4) == 16.0
    ensures Delay(5 + m) == 30.0
    ensures Offset(5 + m) == 31.0 + 30.0 * m as real
  {
    assert Delay(3) == 8.0;
    assert Delay(4) == 16.0;
    assert Offset(2) == 3.0;
    assert Offset(4) == 15.0;
    if m > 0 { BackOffTable(m - 1); }
  }

  lemma {:induction false} DelayAtLeastOne(k: nat)
    ensures 1.0 <= Delay(k) <= 30.0
  {
    if k > 0 { DelayAtLeastOne(k - 1); }
  }

  lemma {:induction false} OffsetsGrow(k: nat, m: nat)
    requires k <= m
    ensures Offset(k) <= Offset(m)
  {
    if k < m {
      OffsetsGrow(k, m - 1);
      DelayAtLeastOne(m - 1);
    }
  }

  // ---- What every log satisfies ----

  /** Call number `k` keeps its distance from the call before it and from the start of its episode. */
  predicate Spaced(p: Policy, calls: seq<Call>, k: nat)
    requires k < |calls|
  {
    var a := Streak(calls[..k]);
    && (k > 0 ==> calls[k].at >= calls[k - 1].finished + 1.0)
    && (a > 0 ==>
          && calls[k].at >= calls[k - a].finished + Offset(a)
          && calls[k].at < calls[k - a].finished + p.window
          && calls[k].at < calls[k - a].at + p.margin)
  }

  predicate LoopInv(p: Policy, s: Renewal, calls: seq<Call>) {
    && s.attempts == Streak(calls)
    && s.delay == Delay(s.attempts)
    && (s.deadline.Some? <==> s.attempts > 0)
    && (calls != [] && s.attempts == 0 ==> s.retryAt >= calls[|calls| - 1].finished + 1.0)
    && (s.attempts > 0 ==>
          var first := calls[|calls| - s.attempts];
          && s.deadline.value == first.finished + p.window
          && s.expires <= first.at + p.margin
          && (s.retryAt == s.deadline.value
              || (s.retryAt >= calls[|calls| - 1].finished + 1.0 && s.retryAt >= first.finished + Offset(s.attempts))))
  }

  lemma NextCallIsSpaced(p: Policy, s: Renewal, calls: seq<Call>, w: Wake)
    requires LoopInv(p, s, calls) && CallsProvider(p, s, w)
    ensures Spaced(p, calls + [Call(w.now, w.finished, w.outcome.Fails?)], |calls|)
  {
    var longer := calls + [Call(w.now, w.finished, w.outcome.Fails?)];
    assert longer[..|calls|] == calls;
    if s.attempts > 0 {
      assert longer[|calls| - s.attempts] == calls[|calls| - s.attempts];
    }
  }

  lemma CallKeepsInvariant(p: Policy, s: Renewal, calls: seq<Call>, w: Wake)
    requires LoopInv(p, s, calls) && CallsProvider(p, s, w) && w.now <= w.finished
    ensures LoopInv(p, Called(p, s, w), calls + [Call(w.now, w.finished, w.outcome.Fails?)])
  {
    var longer := calls + [Call(w.now, w.finished, w.outcome.Fails?)];
    assert longer[..|calls|] == calls;
    DelayAtLeastOne(s.attempts);
    if w.outcome.Fails? && s.attempts > 0 {
      assert longer[|longer| - (s.attempts + 1)] == calls[|calls| - s.attempts];
      assert Offset(s.attempts + 1) == Offset(s.attempts) + Delay(s.attempts);
    }
  }

  predicate AllSpaced(p: Policy, calls: seq<Call>) {
    forall k :: 0 <= k < |calls| ==> Spaced(p, calls, k) && calls[k].at <= calls[k].finished
  }

  lemma SpacingIsLocal(p: Policy, calls: seq<Call>, c: Call, k: nat)
    requires k < |calls|
    ensures Spaced(p, calls + [c], k) == Spaced(p, calls, k)
  {
    assert (calls + [c])[..k] == calls[..k];
  }

  lemma CallKeepsSpacing(p: Policy, calls: seq<Call>, c: Call)
    requires AllSpaced(p, calls) && Spaced(p, calls + [c], |calls|) && c.at <= c.finished
    ensures AllSpaced(p, calls + [c])
  {
    hide Spaced;
    forall k | 0 <= k < |calls| ensures Spaced(p, calls + [c], k) {
      SpacingIsLocal(p, calls, c, k);
    }
  }

  lemma {:induction false} LoopKeepsInvariant(p: Policy, expires: real, script: seq<Wake>)
    requires Monotone(script)
    ensures LoopInv(p, After(p, expires, script), Calls(p, expires, script))
    ensures AllSpaced(p, Calls(p, expires, script))
  {
    hide Spaced;
    hide Streak;
    if script != [] {
      var before, w := script[..|script| - 1], script[|script| - 1];
      LoopKeepsInvariant(p, expires, before);
      var s, calls := After(p, expires, before), Calls(p, expires, before);
      if CallsProvider(p, s, w) {
        NextCallIsSpaced(p, s, calls, w);
        CallKeepsInvariant(p, s, calls, w);
        CallKeepsSpacing(p, calls, Call(w.now, w.finished, w.outcome.Fails?));
      } else {
        assert calls + [] == calls;
      }
    }
  }

  /**
   * Whatever the wake-ups, after its first call the loop leaves at least a second between the end of
   * one provider call and the start of the next, and inside an episode it backs off as the table says,
   * within both the retry window and the renewal margin.
   */
  lemma EveryCallIsSpaced(p: Policy, expires: real, script: seq<Wake>, k: nat)
    requires Monotone(script)
    requires k < |Calls(p, expires, script)|
    ensures var calls := Calls(p, expires, script);
            && (k > 0 ==> calls[k].at >= calls[k - 1].at + 1.0)
            && Spaced(p, calls, k)
  {
    LoopKeepsInvariant(p, expires, script);
    assert Spaced(p, Calls(p, expires, script), k);
    if k > 0 { assert Spaced(p, Calls(p, expires, script), k - 1); }
  }

  /** How many calls an episode has made by the time of call number `k`, that call included. */
  function EpisodeCalls(calls: seq<Call>, k: nat): nat
    requires k < |calls|
  {
    Streak(calls[..k]) + 1
  }

  /** The length of an episode is limited by the window and by the margin, whichever is shorter. */
  lemma EpisodeLimit(p: Policy, expires: real, script: seq<Wake>, k: nat, most: nat)
    requires Monotone(script)
    requires k < |Calls(p, expires, script)|
    requires Min(p.window, p.margin) <= Offset(most) && most > 0
    ensures EpisodeCalls(Calls(p, expires, script), k) <= most
  {
    LoopKeepsInvariant(p, expires, script);
    var calls := Calls(p, expires, script);
    var a := Streak(calls[..k]);
    assert Spaced(p, calls, k);
    if a >= most { OffsetsGrow(most, a); }
  }

  /** At most 24 provider calls in one failure episode of a 600-second window, whatever the margin. */
  lemma AtMost24Calls(margin: real, expires: real, script: seq<Wake>, k: nat)
    requires Monotone(script)
    requires k < |Calls(Policy(margin, 600.0), expires, script)|
    ensures EpisodeCalls(Calls(Policy(margin, 600.0), expires, script), k) <= 24
  {
    BackOffTable(19);
    EpisodeLimit(Policy(margin, 600.0), expires, script, k, 24);
  }

  /** With the default margin the credential expires first: at most 14 calls. */
  lemma AtMost14CallsByDefault(expires: real, script: seq<Wake>, k: nat)
    requires Monotone(script)
    requires k < |Calls(DEFAULT_POLICY, expires, script)|
    ensures EpisodeCalls(Calls(DEFAULT_POLICY, expires, script), k) <= 14
  {
    BackOffTable(9);
    EpisodeLimit(DEFAULT_POLICY, expires, script, k, 14);
  }

  // ---- The limits are attained ----

  /** A provider that fails at once, polled as early as the loop allows. */
  function FailingScript(start: real, n: nat): seq<Wake> {
    seq(n, k requires 0 <= k => Wake(start + Offset(k), false, start + Offset(k), Fails))
  }

  lemma {:induction false} FailingEpisode(p: Policy, n: nat)
    requires p.window > 0.0 && p.margin > 0.0
    requires n > 0 ==> Offset(n - 1) < Min(p.window, p.margin)
    ensures var s := After(p, p.margin, FailingScript(0.0, n));
            && s.alive && s.attempts == n && s.delay == Delay(n) && s.expires == p.margin
            && s.deadline == (if n == 0 then None else Some(p.window))
            && s.retryAt == (if n == 0 then 0.0 else Min(Offset(n), p.window))
    ensures |Calls(p, p.margin, FailingScript(0.0, n))| == n
    ensures Streak(Calls(p, p.margin, FailingScript(0.0, n))) == n
  {
    if n > 0 {
      if n > 1 { OffsetsGrow(n - 2, n - 1); }
      FailingEpisode(p, n - 1);
      OffsetsGrow(0, n - 1);
      var script := FailingScript(0.0, n);
      assert script[..n - 1] == FailingScript(0.0, n - 1);
      var calls := Calls(p, p.margin, script);
      assert calls[..n - 1] == Calls(p, p.margin, FailingScript(0.0, n - 1));
    }
  }

  lemma {:induction false} FailingScriptIsMonotone(start: real, n: nat)
    ensures Monotone(FailingScript(start, n))
  {
    forall k, m | 0 <= k < m < n ensures Offset(k) <= Offset(m) { OffsetsGrow(k, m); }
  }

  /** An episode can make `n` calls exactly when the back-off before its last call fits window and margin. */
  lemma EpisodeLengthExactly(p: Policy, n: nat)
    requires p.window > 0.0 && p.margin > 0.0 && n > 0
    ensures Offset(n - 1) < Min(p.window, p.margin) <==>
            exists expires: real, script: seq<Wake>, k: nat ::
              && Monotone(script) && k < |Calls(p, expires, script)|
              && EpisodeCalls(Calls(p, expires, script), k) == n
  {
    if Offset(n - 1) < Min(p.window, p.margin) {
      FailingEpisode(p, n);
      FailingScriptIsMonotone(0.0, n);
      var calls := Calls(p, p.margin, FailingScript(0.0, n));
      assert Streak(calls[..n - 1]) == n - 1;
      assert EpisodeCalls(calls, n - 1) == n;
    } else if n > 1 {
      forall expires: real, script: seq<Wake>, k: nat | Monotone(script) && k < |Calls(p, expires, script)|
        ensures EpisodeCalls(Calls(p, expires, script), k) != n
      {
        EpisodeLimit(p, expires, script, k, n - 1);
      }
    }
  }
}
