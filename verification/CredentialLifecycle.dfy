/**
 * The renewal thread, the expiry thread and the closer of one short-lived credential, at the grain of
 * their critical sections: each method is one section of code that holds the shared lock, and any
 * interleaving of the threads is a sequence of such calls.
 */
module CredentialLifecycle {
  import opened Common

  datatype Event =
    | Delivered(expires: real, stored: bool)   // handed to the consumer; stored unless the consumer failed
    | Expired(expires: real, now: real)        // the expiry thread removed the stored credential
    | Exhausted                                // the exhaustion callback ran
    | Closed

  datatype Watcher = NotStarted | Watching | Firing | Ended

  predicate EndsLifecycle(e: Event) { e.Closed? || e.Expired? }

  /** Nothing is handed to the consumer once the lifecycle was closed or ran out. */
  predicate NoDeliveryAfterEnd(log: seq<Event>) {
    forall k, m :: 0 <= k < m < |log| && EndsLifecycle(log[k]) ==> !log[m].Delivered?
  }

  /** The credential the consumer holds after this log. */
  function LastStored(log: seq<Event>): Option<real> {
    if log == [] then None
    else if log[|log| - 1].Delivered? && log[|log| - 1].stored then Some(log[|log| - 1].expires)
    else LastStored(log[..|log| - 1])
  }

  /** Expiry strikes the credential that is held, at its time, while nobody has closed the lifecycle. */
  predicate ExpiresRightly(log: seq<Event>, k: nat)
    requires k < |log| && log[k].Expired?
  {
    && log[k].now >= log[k].expires
    && LastStored(log[..k]) == Some(log[k].expires)
    && forall j :: 0 <= j < k ==> !EndsLifecycle(log[j])
  }

  predicate ExpiryIsRight(log: seq<Event>) {
    forall k :: 0 <= k < |log| && log[k].Expired? ==> ExpiresRightly(log, k)
  }

  /** The callback runs at most once, and only after such an expiry. */
  predicate ExhaustionIsRight(log: seq<Event>) {
    && (forall k, m :: 0 <= k < m < |log| && log[k].Exhausted? ==> !log[m].Exhausted?)
    && (forall k :: 0 <= k < |log| && log[k].Exhausted? ==> exists j :: 0 <= j < k && log[j].Expired?)
  }

  predicate Lawful(log: seq<Event>) {
    NoDeliveryAfterEnd(log) && ExpiryIsRight(log) && ExhaustionIsRight(log)
  }

  // ---- What one critical section does ----

  /** The shared state, and what the outside has seen so far. */
  datatype State = State(closed: bool, credential: Option<real>, watcher: Watcher, log: seq<Event>)

  /** What one of the threads does next. Before the threads are launched only `Begin` can deliver. */
  datatype Turn =
    | Begin(expires: real, now: real, consumerFails: bool)
    | LaunchThreads
    | ProviderReturns(expires: real, now: real, consumerFails: bool)
    | ExpiryTurn(now: real)
    | Report
    | CloseNow

  const INITIAL := State(false, None, NotStarted, [])

  function AfterDelivery(s: State, expires: real, now: real, consumerFails: bool): State {
    if expires <= now || s.closed then s
    else s.(log := s.log + [Delivered(expires, !consumerFails)],
            credential := if consumerFails then s.credential else Some(expires))
  }

  function AfterExpiryTurn(s: State, now: real): State {
    if s.closed then s.(watcher := Ended)
    else if s.credential.Some? && now >= s.credential.value then
      State(true, None, Firing, s.log + [Expired(s.credential.value, now)])
    else s
  }

  function AfterReport(s: State, hasCallback: bool): State {
    s.(watcher := Ended, log := s.log + if hasCallback then [Exhausted] else [])
  }

  function AfterClose(s: State): State {
    s.(closed := true, credential := None, log := s.log + [Event.Closed])
  }

  /** One turn of the interleaving; a thread that has nothing to do here leaves the state alone. */
  function Next(hasCallback: bool, s: State, turn: Turn): State {
    match turn
    case Begin(expires, now, consumerFails) =>
      if s.watcher == NotStarted then AfterDelivery(s, expires, now, consumerFails) else s
    case LaunchThreads => if s.watcher == NotStarted && s.credential.Some? then s.(watcher := Watching) else s
    case ProviderReturns(expires, now, consumerFails) =>
      if s.watcher != NotStarted then AfterDelivery(s, expires, now, consumerFails) else s
    case ExpiryTurn(now) => if s.watcher == Watching then AfterExpiryTurn(s, now) else s
    case Report => if s.watcher == Firing then AfterReport(s, hasCallback) else s
    case CloseNow => AfterClose(s)
  }

  function Fold(hasCallback: bool, turns: seq<Turn>): State {
    if turns == [] then INITIAL
    else Next(hasCallback, Fold(hasCallback, turns[..|turns| - 1]), turns[|turns| - 1])
  }

  // ---- What every interleaving keeps ----

  predicate Sound(s: State) {
    && Lawful(s.log)
    && (s.closed <==> exists k :: 0 <= k < |s.log| && EndsLifecycle(s.log[k]))
    && s.credential == (if s.closed then None else LastStored(s.log))
    && (s.watcher in {Watching, Firing} && !s.closed ==> s.credential.Some?)
    && (s.watcher == Firing ==> s.closed && exists k :: 0 <= k < |s.log| && s.log[k].Expired?)
    && (s.watcher != Ended ==> forall k :: 0 <= k < |s.log| ==> !s.log[k].Exhausted?)
    && (s.watcher == Watching ==> forall k :: 0 <= k < |s.log| ==> !s.log[k].Expired?)
  }

  /** Expiry judgements look only at what happened before. */
  lemma PrefixesStay(log: seq<Event>, e: Event)
    ensures ExpiryIsRight(log) ==> forall k :: 0 <= k < |log| && log[k].Expired? ==> ExpiresRightly(log + [e], k)
    ensures LastStored(log + [e]) == if e.Delivered? && e.stored then Some(e.expires) else LastStored(log)
    ensures forall k :: 0 <= k < |log| && EndsLifecycle(log[k]) ==> EndsLifecycle((log + [e])[k])
    ensures forall k :: 0 <= k < |log| && log[k].Expired? ==> (log + [e])[k].Expired?
  {
    assert (log + [e])[..|log|] == log;
    if ExpiryIsRight(log) {
      forall k | 0 <= k < |log| && log[k].Expired? ensures ExpiresRightly(log + [e], k) {
        assert ExpiresRightly(log, k);
        assert (log + [e])[..k] == log[..k];
      }
    }
  }

  lemma DeliveryIsSound(s: State, expires: real, now: real, consumerFails: bool)
    requires Sound(s)
    ensures Sound(AfterDelivery(s, expires, now, consumerFails))
  {
    if expires > now && !s.closed { PrefixesStay(s.log, Delivered(expires, !consumerFails)); }
  }

  lemma ExpiryTurnIsSound(s: State, now: real)
    requires Sound(s) && s.watcher == Watching
    ensures Sound(AfterExpiryTurn(s, now))
  {
    if !s.closed {
      var log := s.log + [Expired(s.credential.value, now)];
      PrefixesStay(s.log, Expired(s.credential.value, now));
      assert log[..|s.log|] == s.log && EndsLifecycle(log[|s.log|]);
    }
  }

  lemma ReportIsSound(s: State, hasCallback: bool)
    requires Sound(s) && s.watcher == Firing
    ensures Sound(AfterReport(s, hasCallback))
  {
    if hasCallback {
      PrefixesStay(s.log, Exhausted);
    } else {
      assert s.log + [] == s.log;
    }
  }

  lemma CloseIsSound(s: State)
    requires Sound(s)
    ensures Sound(AfterClose(s))
  {
    PrefixesStay(s.log, Event.Closed);
    assert EndsLifecycle((s.log + [Event.Closed])[|s.log|]);
  }

  lemma TurnIsSound(hasCallback: bool, s: State, turn: Turn)
    requires Sound(s)
    ensures Sound(Next(hasCallback, s, turn))
    ensures !hasCallback && Exhausted !in s.log ==> Exhausted !in Next(hasCallback, s, turn).log
  {
    hide Sound;
    match turn {
      case Begin(expires, now, consumerFails) => DeliveryIsSound(s, expires, now, consumerFails);
      case LaunchThreads => LaunchIsSound(s);
      case ProviderReturns(expires, now, consumerFails) => DeliveryIsSound(s, expires, now, consumerFails);
      case ExpiryTurn(now) => if s.watcher == Watching { ExpiryTurnIsSound(s, now); }
      case Report => if s.watcher == Firing { ReportIsSound(s, hasCallback); }
      case CloseNow => CloseIsSound(s);
    }
  }

  lemma LaunchIsSound(s: State)
    requires Sound(s)
    ensures s.watcher == NotStarted && s.credential.Some? ==> Sound(s.(watcher := Watching))
  {
  }

  lemma {:induction false} InterleavingIsSound(hasCallback: bool, turns: seq<Turn>)
    ensures Sound(Fold(hasCallback, turns))
    ensures !hasCallback ==> Exhausted !in Fold(hasCallback, turns).log
  {
    if turns != [] {
      InterleavingIsSound(hasCallback, turns[..|turns| - 1]);
      TurnIsSound(hasCallback, Fold(hasCallback, turns[..|turns| - 1]), turns[|turns| - 1]);
    }
  }

  /** Under every interleaving nothing is delivered after a close or an expiry. */
  lemma NothingAfterTheEnd(hasCallback: bool, turns: seq<Turn>)
    ensures NoDeliveryAfterEnd(Fold(hasCallback, turns).log)
  {
    InterleavingIsSound(hasCallback, turns);
  }

  /** The callback runs at most once, and only after the held credential had expired while still open. */
  lemma ExhaustionOnlyAfterExpiry(hasCallback: bool, turns: seq<Turn>, k: nat)
    requires k < |Fold(hasCallback, turns).log| && Fold(hasCallback, turns).log[k].Exhausted?
    ensures var log := Fold(hasCallback, turns).log;
            && hasCallback
            && (forall m :: 0 <= m < |log| && log[m].Exhausted? ==> m == k)
            && exists j :: 0 <= j < k && log[j].Expired? && ExpiresRightly(log, j)
  {
    InterleavingIsSound(hasCallback, turns);
    var log := Fold(hasCallback, turns).log;
    var j :| 0 <= j < k && log[j].Expired?;
    assert ExpiresRightly(log, j);
  }

  // ---- The object the threads share ----

  class RenewableCredential {
    const hasCallback: bool
    var closed: bool
    var credential: Option<real>
    var watcher: Watcher
    ghost var log: seq<Event>

    constructor (hasCallback: bool)
      ensures this.hasCallback == hasCallback && Valid() && View() == INITIAL
    {
      this.hasCallback := hasCallback;
      closed, credential, watcher, log := false, None, NotStarted, [];
    }

    ghost function View(): State
      reads this
    {
      State(closed, credential, watcher, log)
    }

    ghost predicate Valid()
      reads this
    {
      Sound(View())
    }

    /** The last part of an update: check the provider's value, then deliver it under the lock. */
    method Deliver(expires: real, now: real, consumerFails: bool) returns (ok: bool)
      requires Valid()
      modifies this`credential, this`log
      ensures Valid() && View() == AfterDelivery(old(View()), expires, now, consumerFails)
      ensures ok == (expires > now && (closed || !consumerFails))
    {
      DeliveryIsSound(View(), expires, now, consumerFails);
      if expires <= now { return false; }
      if closed { return true; }
      log := log + [Delivered(expires, !consumerFails)];
      if consumerFails { return false; }
      credential := Some(expires);
      ok := true;
    }

    /** The last part of a successful start: the two threads begin unless the lifecycle was closed meanwhile. */
    method Launch() returns (ok: bool)
      requires Valid() && watcher == NotStarted && (credential.Some? || closed)
      modifies this`watcher
      ensures Valid()
      ensures ok == !closed && View() == if ok then old(View()).(watcher := Watching) else old(View())
    {
      LaunchIsSound(View());
      if closed { return false; }
      watcher := Watching;
      ok := true;
    }

    /** One turn of the expiry thread. An open lifecycle always holds a credential here. */
    method WatchExpiry(now: real)
      requires Valid() && watcher == Watching
      modifies this
      ensures Valid() && View() == AfterExpiryTurn(old(View()), now)
      ensures !old(closed) ==> old(credential).Some?
    {
      ExpiryTurnIsSound(View(), now);
      if closed {
        watcher := Ended;
        return;
      }
      var remaining := credential.value - now;
      if remaining <= 0.0 {
        log := log + [Expired(credential.value, now)];
        closed, credential, watcher := true, None, Firing;
      }
    }

    /** After the lock is released the expiry thread reports the exhaustion, once. */
    method ReportExhaustion() returns (reported: bool)
      requires Valid() && watcher == Firing
      modifies this`watcher, this`log
      ensures Valid() && View() == AfterReport(old(View()), hasCallback) && reported == hasCallback
    {
      ReportIsSound(View(), hasCallback);
      reported := hasCallback;
      log := log + if hasCallback then [Exhausted] else [];
      watcher := Ended;
    }

    method Close()
      requires Valid()
      modifies this`closed, this`credential, this`log
      ensures Valid() && View() == AfterClose(old(View()))
    {
      CloseIsSound(View());
      log := log + [Event.Closed];
      closed, credential := true, None;
    }

    method Take(turn: Turn)
      requires Valid()
      modifies this
      ensures Valid() && View() == Next(hasCallback, old(View()), turn)
    {
      hide Sound;
      match turn {
        case Begin(expires, now, consumerFails) =>
          if watcher == NotStarted { var _ := Deliver(expires, now, consumerFails); }
        case LaunchThreads => if watcher == NotStarted && (credential.Some? || closed) { TryLaunch(); }
        case ProviderReturns(expires, now, consumerFails) =>
          if watcher != NotStarted { var _ := Deliver(expires, now, consumerFails); }
        case ExpiryTurn(now) => if watcher == Watching { WatchExpiry(now); }
        case Report => if watcher == Firing { var _ := ReportExhaustion(); }
        case CloseNow => Close();
      }
    }

    method TryLaunch()
      requires Valid() && watcher == NotStarted && (credential.Some? || closed)
      modifies this`watcher
      ensures Valid() && View() == Next(hasCallback, old(View()), LaunchThreads)
    {
      var ok := Launch();
    }
  }

  /** Any interleaving of the critical sections leaves exactly the state that its turns describe. */
  method Interleave(hasCallback: bool, turns: seq<Turn>)
    returns (closed: bool, credential: Option<real>, watcher: Watcher, ghost log: seq<Event>)
    ensures var s := Fold(hasCallback, turns);
            closed == s.closed && credential == s.credential && watcher == s.watcher && log == s.log
  {
    var c := new RenewableCredential(hasCallback);
    for i := 0 to |turns|
      invariant fresh(c) && c.Valid() && c.hasCallback == hasCallback && c.View() == Fold(hasCallback, turns[..i])
    {
      assert turns[..i + 1][..i] == turns[..i];
      c.Take(turns[i]);
    }
    assert turns[..|turns|] == turns;
    closed, credential, watcher, log := c.closed, c.credential, c.watcher, c.log;
  }
}
