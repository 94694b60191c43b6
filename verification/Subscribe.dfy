/** Subscribing through the stale state a reconnect leaves, and unsubscribing in cleanup. */
module Subscribe {
  import opened Ble

  /** How one `start_notify` ends. The two kinds of backend error the recovery
      knows by their wording are told apart from every other error. */
  datatype Start = Started | Stale(error: Error) | Undiscovered(error: Error) | Unknown(error: Error)

  /** How a bounded cleanup call ends; `Hung` is cut by its own bound. */
  datatype Cleanup = Clean | Failed | Hung | Interrupted

  datatype Round = Round(start: Start, stop: Cleanup, refresh: Cleanup, pauseInterrupted: bool)

  predicate Recoverable(s: Start) { s.Stale? || s.Undiscovered? }

  /** Nothing cancels the recovery that follows this failed try. */
  predicate Recovers(round: Round, hasServices: bool) {
    && Recoverable(round.start)
    && (round.start.Stale? ==> round.stop != Interrupted)
    && (hasServices ==> round.refresh != Interrupted)
    && !round.pauseInterrupted
  }

  /** The tries among `1..n` that failed on a stale subscription. */
  function StaleTries(script: nat -> Round, n: nat): (r: nat)
    ensures r == |set k: nat | 1 <= k <= n && script(k).start.Stale?|
  {
    if n == 0 then
      EmptySet(script);
      0
    else
      OneMoreTry(script, n - 1);
      StaleTries(script, n - 1) + (if script(n).start.Stale? then 1 else 0)
  }

  lemma {:induction false} EmptySet(script: nat -> Round)
    ensures (set k: nat | 1 <= k <= 0 && script(k).start.Stale?) == {}
  {}

  lemma {:induction false} OneMoreTry(script: nat -> Round, n: nat)
    ensures |set k: nat | 1 <= k <= n + 1 && script(k).start.Stale?| ==
      |set k: nat | 1 <= k <= n && script(k).start.Stale?| + if script(n + 1).start.Stale? then 1 else 0
  {
    var was := set k: nat | 1 <= k <= n && script(k).start.Stale?;
    var now := set k: nat | 1 <= k <= n + 1 && script(k).start.Stale?;
    assert now == was + if script(n + 1).start.Stale? then {n + 1} else {};
  }

  lemma {:induction false} TriesCounted(script: nat -> Round, n: nat)
    ensures StaleTries(script, 0) == 0
    ensures n > 0 ==>
      StaleTries(script, n) == StaleTries(script, n - 1) + (if script(n).start.Stale? then 1 else 0)
  {}

  lemma {:induction false} Triangle(n: nat)
    ensures (n + 1) * n == n * (n - 1) + 2 * n
  {}

  /** What the environment did: `starts`, `stops` and `refreshes` are the calls
      issued, `slept` the quarter seconds of pause completed. */
  datatype Calls = Calls(starts: nat, stops: nat, refreshes: nat, slept: nat)

  /** `script(n)` is what happens around try `n`, counted from 1. */
  method StartNotifyWithRecovery(attempts: int, hasServices: bool, script: nat -> Round)
    returns (r: Result<()>, calls: Calls)
    ensures attempts < 1 ==> r == Raised(ValueError) && calls == Calls(0, 0, 0, 0)
    ensures attempts >= 1 ==> 1 <= calls.starts <= attempts
    ensures attempts >= 1 ==> forall n :: 1 <= n < calls.starts ==> Recovers(script(n), hasServices)
    ensures forall n :: 1 <= n < calls.starts ==> script(n).start.Stale? || script(n).start.Undiscovered?
    ensures !r.Unfinished?
    ensures r.Returned? <==> attempts >= 1 && script(calls.starts).start == Started
    ensures attempts >= 1 ==> 2 * calls.slept == calls.starts * (calls.starts - 1)
    ensures attempts >= 1 && r.Raised? ==>
      var last := script(calls.starts);
      if last.start.Unknown? || calls.starts == attempts then r.error == last.start.error
      else r.error == CancelledError && !Recovers(last, hasServices)
    // A try recovered from was released once if it was stale, and refreshed once; nothing else was.
    ensures attempts >= 1 ==>
      var last := script(calls.starts);
      var given := r.Returned? || calls.starts == attempts || last.start.Unknown?;
      var released := if given then calls.starts - 1 else calls.starts;
      var refreshed := if last.start.Stale? && last.stop == Interrupted then calls.starts - 1 else released;
      && calls.stops == StaleTries(script, released)
      && calls.refreshes == if hasServices then refreshed else 0
  {
    hide StaleTries;
    calls := Calls(0, 0, 0, 0);
    if attempts < 1 {
      return Raised(ValueError), calls;
    }
    var attempt := 1;
    TriesCounted(script, 0);
    while true
      invariant 1 <= attempt <= attempts && calls.starts == attempt - 1
      invariant forall n :: 1 <= n < attempt ==> Recovers(script(n), hasServices)
      invariant calls.stops == StaleTries(script, attempt - 1)
      invariant 2 * calls.slept == attempt * (attempt - 1)
      invariant calls.refreshes == if hasServices then attempt - 1 else 0
      decreases attempts - attempt
    {
      var round := script(attempt);
      TriesCounted(script, attempt);
      Triangle(attempt);
      calls := calls.(starts := calls.starts + 1);
      if round.start == Started {
        return Returned(()), calls;
      }
      if round.start.Unknown? {
        return Raised(round.start.error), calls;
      }
      if attempt == attempts {
        return Raised(round.start.error), calls;
      }
      if round.start.Stale? {
        calls := calls.(stops := calls.stops + 1);
        if round.stop == Interrupted { return Raised(CancelledError), calls; }
      }
      if hasServices {
        calls := calls.(refreshes := calls.refreshes + 1);
        if round.refresh == Interrupted { return Raised(CancelledError), calls; }
      }
      if round.pauseInterrupted { return Raised(CancelledError), calls; }
      calls := calls.(slept := calls.slept + attempt);
      attempt := attempt + 1;
    }
  }

  /** `stops` is how many unsubscribes were issued: none on a link that is down. */
  method StopNotifyBestEffort(connected: bool, op: Cleanup) returns (r: Result<()>, stops: nat)
    ensures stops == if connected then 1 else 0
    ensures r == if connected && op == Interrupted then Raised(CancelledError) else Returned(())
  {
    if !connected { return Returned(()), 0; }
    match op
    case Interrupted => return Raised(CancelledError), 1;
    case _ => return Returned(()), 1;
  }

  // ── The subscription around a body ───────────────────────────────────────

  const NOTIFY_ATTEMPTS := 3

  /** One `async with Notifications(...)`: how subscribing goes, with or without
      recovery, whether the settle pause is cut short, and the release. */
  datatype Use = Use(
    recover: bool,
    plain: Start,
    script: nat -> Round,
    hasServices: bool,
    settle: Option<Error>,
    connected: bool,
    stop: Cleanup)

  /** Subscribes, runs a body that ends in `body` (an error or none), and unsubscribes.
      A subscription that was made is released exactly once, settle or body failing
      or not, unless the link is gone; and nothing but a cancellation of the release
      takes the place of what the body came to. */
  method WithNotifications(u: Use, body: Option<Error>)
    returns (r: Result<()>, subscribed: bool, ran: bool, released: nat, calls: Calls)
    ensures released == if subscribed && u.connected then 1 else 0
    ensures ran <==> subscribed && u.settle.None?
    ensures !subscribed ==> r.Raised?
    ensures subscribed && r.Returned? ==> ran && body.None?
    ensures subscribed && !(u.connected && u.stop == Interrupted) ==>
      var own := if u.settle.Some? then u.settle else body;
      if own.Some? then r == Raised(own.value) else r.Returned?
    ensures subscribed && u.connected && u.stop == Interrupted ==> r == Raised(CancelledError)
    ensures if u.recover
      then 1 <= calls.starts <= NOTIFY_ATTEMPTS && (subscribed <==> u.script(calls.starts).start == Started)
      else calls.starts == 1 && (subscribed <==> u.plain == Started)
  {
    subscribed, ran, released := false, false, 0;
    if u.recover {
      var started;
      started, calls := StartNotifyWithRecovery(NOTIFY_ATTEMPTS, u.hasServices, u.script);
      if started.Raised? { return Raised(started.error), subscribed, ran, released, calls; }
    } else {
      calls := Calls(1, 0, 0, 0);
      if u.plain != Started { return Raised(u.plain.error), subscribed, ran, released, calls; }
    }
    subscribed := true;
    var outcome := u.settle;
    if outcome.None? {
      ran, outcome := true, body;
    }
    var stopped;
    stopped, released := StopNotifyBestEffort(u.connected, u.stop);
    r := if stopped.Raised? then Raised(stopped.error)
         else if outcome.Some? then Raised(outcome.value) else Returned(());
  }
}
