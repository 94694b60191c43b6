/** How long one attempt holds the lock.

    The attempt bound is a cancellation that is delivered once: to the await
    that is running when it fires. Everything awaited after that, in the
    `finally` and `__aexit__` of the session and of its subscriptions, has only
    its own bound left. */
module LockHold {
  import opened Ble
  import Sessions = Session

  /** `takes` is how long an await would run; `None` never returns by itself. */
  datatype Work =
    | Await(takes: Option<nat>, fails: bool)
    | Then(first: Work, second: Work)
    | Handled(body: Work, handler: Work)      // try: body except Exception: handler
    | Subscribed(                             // async with Notifications(...)
        start: Work, settle: Option<Work>, body: Work, connected: bool, stop: Option<nat>)

  /** A `ble_session`: the stale close if a handle was turned down, then connecting
      (with `close_stale` in front), the settle, the block, and the close. */
  datatype Session = Session(
    stale: Option<Option<nat>>,
    connect: Work,
    settle: Work,
    block: Work,
    keep: bool,
    close: Option<nat>)

  /** `Stuck`: an await nothing bounds any more never returns. */
  datatype End = Finished | Failed | Cancelled | Stuck

  /** The bounds on an unsubscribe and on a disconnect. */
  datatype Bounds = Bounds(stopNotify: nat, disconnect: nat)

  function Max(a: nat, b: nat): nat { if a < b then b else a }

  /** The longest cleanup that can follow a cancellation inside `w`. */
  function Cleanup(w: Work, unsubscribe: nat): nat {
    match w
    case Await(_, _) => 0
    case Then(p, q) => Max(Cleanup(p, unsubscribe), Cleanup(q, unsubscribe))
    case Handled(p, h) => Max(Cleanup(p, unsubscribe), Cleanup(h, unsubscribe))
    case Subscribed(start, settle, body, _, _) =>
      var inSettle := if settle.Some? then Cleanup(settle.value, unsubscribe) else 0;
      Max(Cleanup(start, unsubscribe), unsubscribe + Max(inSettle, Cleanup(body, unsubscribe)))
  }

  /** How a piece of the attempt came out, when, and what is left of the bound. */
  datatype Moment = Moment(end: End, at: int, left: Option<int>)

  // ── One attempt in time ──────────────────────────────────────────────────

  function RunAwait(takes: Option<nat>, fails: bool, now: int, bound: Option<int>): Moment {
    if bound.Some? && (takes.None? || now + takes.value > bound.value) then
      Moment(Cancelled, if now < bound.value then bound.value else now, None)
    else if takes.None? then Moment(Stuck, now, bound)
    else Moment(if fails then Failed else Finished, now + takes.value, bound)
  }

  /** An await under `asyncio.timeout(own)` whose failure is swallowed: the
      unsubscribe and the disconnect. Only a cancellation gets out. */
  function RunCleanup(own: nat, takes: Option<nat>, now: int, bound: Option<int>): Moment {
    RunAwait(Some(if takes.None? || takes.value > own then own else takes.value), false, now, bound)
  }

  /** A cleanup in a `finally` after `m`; a cancellation in it replaces what was in flight. */
  function AndThenCleanup(m: Moment, own: nat, takes: Option<nat>): Moment {
    if m.end == Stuck then m else
      var c := RunCleanup(own, takes, m.at, m.left);
      c.(end := if c.end == Cancelled then Cancelled else m.end)
  }

  function RunWork(w: Work, b: Bounds, now: int, bound: Option<int>): Moment
    decreases w
  {
    match w
    case Await(takes, fails) => RunAwait(takes, fails, now, bound)
    case Then(p, q) =>
      var m := RunWork(p, b, now, bound);
      if m.end == Finished then RunWork(q, b, m.at, m.left) else m
    case Handled(p, h) =>
      var m := RunWork(p, b, now, bound);
      if m.end == Failed then RunWork(h, b, m.at, m.left) else m
    case Subscribed(start, settle, body, connected, stop) =>
      var m := RunWork(start, b, now, bound);
      if m.end != Finished then m else
        var n := if settle.Some? then RunWork(settle.value, b, m.at, m.left) else m;
        var o := if n.end == Finished then RunWork(body, b, n.at, n.left) else n;
        if connected then AndThenCleanup(o, b.stopNotify, stop) else o
  }

  /** Up to the connect: the stale close and the connect itself. */
  function RunConnect(s: Session, b: Bounds, now: int, bound: Option<int>): Moment {
    var stale := if s.stale.Some? then RunCleanup(b.disconnect, s.stale.value, now, bound)
                 else Moment(Finished, now, bound);
    if stale.end == Finished then RunWork(s.connect, b, stale.at, stale.left) else stale
  }

  /** Up to the settle, after a connect that went through. */
  function RunSettle(s: Session, b: Bounds, now: int, bound: Option<int>): Moment {
    var connected := RunConnect(s, b, now, bound);
    RunWork(s.settle, b, connected.at, connected.left)
  }

  /** Everything in front of the close, after a connect that went through. */
  function RunBlock(s: Session, b: Bounds, now: int, bound: Option<int>): Moment {
    var settled := RunSettle(s, b, now, bound);
    if settled.end == Finished then RunWork(s.block, b, settled.at, settled.left) else settled
  }

  function RunSession(s: Session, b: Bounds, now: int, bound: Option<int>): Moment {
    if RunConnect(s, b, now, bound).end != Finished then RunConnect(s, b, now, bound)
    else if s.keep && RunSettle(s, b, now, bound).end == Finished then RunBlock(s, b, now, bound)
    else AndThenCleanup(RunBlock(s, b, now, bound), b.disconnect, s.close)
  }

  /** The close takes its time exactly when `Session.Host.BleSession` issues it: for
      a link that came up, unless it was handed off and is kept. */
  lemma {:induction false} PaidExactlyWhenIssued(
      s: Session, b: Bounds, now: int, bound: Option<int>,
      owned: Option<Sessions.Link>, yielded: Option<Sessions.Link>)
    requires owned.Some? <==> RunConnect(s, b, now, bound).end == Finished
    requires yielded.Some? <==> owned.Some? && RunSettle(s, b, now, bound).end == Finished
    ensures RunSession(s, b, now, bound) ==
      if owned.None? then RunConnect(s, b, now, bound)
      else if Sessions.Closes(s.keep, owned, yielded)
      then AndThenCleanup(RunBlock(s, b, now, bound), b.disconnect, s.close)
      else RunBlock(s, b, now, bound)
  {}

  /** `run_attempts` holds the lock from the start of the attempt under its bound until its end. */
  function HoldTime(s: Session, b: Bounds, attemptTimeout: nat): int {
    RunSession(s, b, 0, Some(attemptTimeout)).at
  }

  // ── When the bound does not fire ─────────────────────────────────────────

  /** What a bounded cleanup call takes. */
  function Paid(takes: Option<nat>, own: nat): nat {
    if takes.Some? && takes.value <= own then takes.value else own
  }

  /** How a piece of an attempt comes out by itself, and after how long. */
  datatype Course = Course(fails: bool, time: nat)

  /** The course of `a`, and then that of `b` if `a` ended in `failing` or not. */
  function Onward(a: Option<Course>, failing: bool, b: Option<Course>): Option<Course> {
    if a.None? || a.value.fails != failing then a
    else if b.None? then None else Some(Course(b.value.fails, a.value.time + b.value.time))
  }

  /** Where `w` gets by itself: nothing if it hangs. A failure skips what follows it, a
      handler runs after one only, and a subscription that was made is paid for at
      the end however its body ends. */
  function ByItself(w: Work, unsubscribe: nat): Option<Course> {
    match w
    case Await(takes, fails) => if takes.None? then None else Some(Course(fails, takes.value))
    case Then(p, q) => Onward(ByItself(p, unsubscribe), false, ByItself(q, unsubscribe))
    case Handled(p, h) => Onward(ByItself(p, unsubscribe), true, ByItself(h, unsubscribe))
    case Subscribed(start, settle, body, connected, stop) =>
      var settled := if settle.Some? then ByItself(settle.value, unsubscribe) else Some(Course(false, 0));
      var inside := Onward(settled, false, ByItself(body, unsubscribe));
      var release := if connected then Paid(stop, unsubscribe) else 0;
      var left := if inside.None? then None else Some(inside.value.(time := inside.value.time + release));
      Onward(ByItself(start, unsubscribe), false, left)
  }

  function Reached(c: Course, now: int, fires: int): Moment {
    Moment(if c.fails then Failed else Finished, now + c.time, Some(fires))
  }

  /** Work that is over in time takes its own course, and leaves the bound as it was. */
  lemma {:induction false} QuietWork(w: Work, b: Bounds, now: int, fires: int)
    requires ByItself(w, b.stopNotify).Some? && now + ByItself(w, b.stopNotify).value.time <= fires
    ensures RunWork(w, b, now, Some(fires)) == Reached(ByItself(w, b.stopNotify).value, now, fires)
    decreases w
  {
    var u := b.stopNotify;
    match w
    case Await(_, _) =>
    case Then(p, q) =>
      QuietWork(p, b, now, fires);
      var first := ByItself(p, u).value;
      if !first.fails { QuietWork(q, b, now + first.time, fires); }
    case Handled(p, h) =>
      QuietWork(p, b, now, fires);
      var first := ByItself(p, u).value;
      if first.fails { QuietWork(h, b, now + first.time, fires); }
    case Subscribed(start, settle, body, _, _) =>
      QuietWork(start, b, now, fires);
      var first := ByItself(start, u).value;
      if !first.fails {
        if settle.Some? { QuietWork(settle.value, b, now + first.time, fires); }
        var settled := if settle.Some? then ByItself(settle.value, u).value else Course(false, 0);
        if !settled.fails { QuietWork(body, b, now + first.time + settled.time, fires); }
        QuietRelease(w, b, now, fires);
      }
  }

  /** A subscription whose parts take their own course takes its own. */
  lemma {:induction false} QuietRelease(w: Work, b: Bounds, now: int, fires: int)
    requires w.Subscribed? && ByItself(w, b.stopNotify).Some? && now + ByItself(w, b.stopNotify).value.time <= fires
    requires ByItself(w.start, b.stopNotify).Some? && !ByItself(w.start, b.stopNotify).value.fails
    requires RunWork(w.start, b, now, Some(fires)) == Reached(ByItself(w.start, b.stopNotify).value, now, fires)
    requires var subscribed := now + ByItself(w.start, b.stopNotify).value.time;
      var settled := if w.settle.Some? then ByItself(w.settle.value, b.stopNotify) else Some(Course(false, 0));
      && settled.Some?
      && (w.settle.Some? ==>
            RunWork(w.settle.value, b, subscribed, Some(fires)) == Reached(settled.value, subscribed, fires))
      && (!settled.value.fails ==>
            && ByItself(w.body, b.stopNotify).Some?
            && RunWork(w.body, b, subscribed + settled.value.time, Some(fires)) ==
               Reached(ByItself(w.body, b.stopNotify).value, subscribed + settled.value.time, fires))
    ensures RunWork(w, b, now, Some(fires)) == Reached(ByItself(w, b.stopNotify).value, now, fires)
  {}

  /** A session that is over in time holds the lock for exactly its parts, the stale close
      among them: a connect that fails has no link to close, and a link that came up
      is closed at the end unless it was handed off to be kept, the block failing or not. */
  lemma {:induction false} QuietSession(s: Session, b: Bounds, attemptTimeout: nat)
    requires ByItself(s.connect, b.stopNotify).Some? && ByItself(s.settle, b.stopNotify).Some?
    requires ByItself(s.block, b.stopNotify).Some?
    ensures var connect, settle := ByItself(s.connect, b.stopNotify).value, ByItself(s.settle, b.stopNotify).value;
      var block, closing := ByItself(s.block, b.stopNotify).value, Paid(s.close, b.disconnect);
      var up := connect.time + (if s.stale.Some? then Paid(s.stale.value, b.disconnect) else 0);
      var course :=
        if connect.fails then Course(true, up)
        else if settle.fails then Course(true, up + settle.time + closing)
        else Course(block.fails, up + settle.time + block.time + (if s.keep then 0 else closing));
      course.time <= attemptTimeout ==>
        RunSession(s, b, 0, Some(attemptTimeout)) == Reached(course, 0, attemptTimeout)
  {
    hide RunWork, ByItself;
    var u, fires := b.stopNotify, attemptTimeout;
    var stale := if s.stale.Some? then Paid(s.stale.value, b.disconnect) else 0;
    var connected := stale + ByItself(s.connect, u).value.time;
    if connected <= fires {
      QuietWork(s.connect, b, stale, fires);
      var settled := connected + ByItself(s.settle, u).value.time;
      if !ByItself(s.connect, u).value.fails && settled <= fires {
        QuietWork(s.settle, b, connected, fires);
        if settled + ByItself(s.block, u).value.time <= fires { QuietWork(s.block, b, settled, fires); }
      }
    }
  }

  // ── The bound, wherever it fires ─────────────────────────────────────────

  /** With the bound at `fires` still pending at `now`, a piece of the attempt either
      ends before it with the bound untouched, or is the one it cancels, and
      then ends within `extra` after it. */
  predicate InTime(now: int, fires: int, m: Moment, extra: nat) {
    && now <= m.at && m.end != Stuck
    && (m.left == Some(fires) ==> m.end != Cancelled && m.at <= fires)
    && (m.left != Some(fires) ==> m.left == None && m.end == Cancelled && fires <= m.at <= fires + extra)
  }

  lemma {:induction false} CleanupInTime(m: Moment, own: nat, takes: Option<nat>, now: int, fires: int, extra: nat)
    requires InTime(now, fires, m, extra)
    ensures InTime(now, fires, AndThenCleanup(m, own, takes), extra + own)
  {}

  lemma {:induction false} WorkInTime(w: Work, b: Bounds, now: int, fires: int)
    requires now <= fires
    ensures InTime(now, fires, RunWork(w, b, now, Some(fires)), Cleanup(w, b.stopNotify))
    decreases w
  {
    match w
    case Await(_, _) =>
    case Then(p, q) =>
      WorkInTime(p, b, now, fires);
      var m := RunWork(p, b, now, Some(fires));
      if m.end == Finished { WorkInTime(q, b, m.at, fires); }
    case Handled(p, h) =>
      WorkInTime(p, b, now, fires);
      var m := RunWork(p, b, now, Some(fires));
      if m.end == Failed { WorkInTime(h, b, m.at, fires); }
    case Subscribed(start, settle, body, connected, stop) =>
      WorkInTime(start, b, now, fires);
      var m := RunWork(start, b, now, Some(fires));
      if m.end == Finished {
        if settle.Some? { WorkInTime(settle.value, b, m.at, fires); }
        var n := if settle.Some? then RunWork(settle.value, b, m.at, m.left) else m;
        if n.end == Finished { WorkInTime(body, b, n.at, fires); }
        var o := if n.end == Finished then RunWork(body, b, n.at, n.left) else n;
        var inner := Max(if settle.Some? then Cleanup(settle.value, b.stopNotify) else 0, Cleanup(body, b.stopNotify));
        CleanupInTime(o, b.stopNotify, stop, now, fires, inner);
      }
  }

  function SessionCleanup(s: Session, b: Bounds): nat {
    Max(Cleanup(s.connect, b.stopNotify),
        Max(Cleanup(s.settle, b.stopNotify), Cleanup(s.block, b.stopNotify)) + b.disconnect)
  }

  lemma {:induction false} SessionInTime(s: Session, b: Bounds, now: int, fires: int)
    requires now <= fires
    ensures InTime(now, fires, RunSession(s, b, now, Some(fires)), SessionCleanup(s, b))
  {
    var stale := if s.stale.Some? then RunCleanup(b.disconnect, s.stale.value, now, Some(fires))
                 else Moment(Finished, now, Some(fires));
    if stale.end == Finished {
      WorkInTime(s.connect, b, stale.at, fires);
      var connected := RunConnect(s, b, now, Some(fires));
      if connected.end == Finished {
        WorkInTime(s.settle, b, connected.at, fires);
        var settled := RunSettle(s, b, now, Some(fires));
        if settled.end == Finished { WorkInTime(s.block, b, settled.at, fires); }
        CleanupInTime(RunBlock(s, b, now, Some(fires)), b.disconnect, s.close, now, fires,
          Max(Cleanup(s.settle, b.stopNotify), Cleanup(s.block, b.stopNotify)));
      }
    }
  }

  // ── Nested subscriptions ─────────────────────────────────────────────────

  /** How deep subscriptions nest in `w`. */
  function Depth(w: Work): nat {
    match w
    case Await(_, _) => 0
    case Then(p, q) => Max(Depth(p), Depth(q))
    case Handled(p, h) => Max(Depth(p), Depth(h))
    case Subscribed(start, settle, body, _, _) =>
      Max(Depth(start), 1 + Max(if settle.Some? then Depth(settle.value) else 0, Depth(body)))
  }

  /** `n * u`, one term at a time. */
  function Times(n: nat, u: nat): (r: nat)
    ensures r == n * u
  {
    if n == 0 then 0 else
      assert n * u == u + (n - 1) * u;
      u + Times(n - 1, u)
  }

  lemma {:induction false} TimesGrows(m: nat, n: nat, u: nat)
    requires m <= n
    ensures Times(m, u) <= Times(n, u)
    decreases n
  {
    if m < n { TimesGrows(m, n - 1, u); }
  }

  lemma {:induction false} TimesMax(a: nat, b: nat, u: nat)
    ensures Times(Max(a, b), u) == Max(Times(a, u), Times(b, u))
  {
    if a < b { TimesGrows(a, b, u); } else { TimesGrows(b, a, u); }
  }

  /** Only nesting adds up: blocks that follow one another share the same bound. */
  lemma {:induction false} CleanupByDepth(w: Work, unsubscribe: nat)
    ensures Cleanup(w, unsubscribe) == Times(Depth(w), unsubscribe)
  {
    match w
    case Await(_, _) =>
    case Then(p, q) =>
      CleanupByDepth(p, unsubscribe);
      CleanupByDepth(q, unsubscribe);
      TimesMax(Depth(p), Depth(q), unsubscribe);
    case Handled(p, h) =>
      CleanupByDepth(p, unsubscribe);
      CleanupByDepth(h, unsubscribe);
      TimesMax(Depth(p), Depth(h), unsubscribe);
    case Subscribed(start, settle, body, _, _) =>
      CleanupByDepth(start, unsubscribe);
      if settle.Some? { CleanupByDepth(settle.value, unsubscribe); }
      CleanupByDepth(body, unsubscribe);
      var inner := if settle.Some? then Depth(settle.value) else 0;
      TimesMax(inner, Depth(body), unsubscribe);
      TimesMax(Depth(start), 1 + Max(inner, Depth(body)), unsubscribe);
  }

  /** A session whose connect and settle subscribe to nothing and whose block
      nests `k` subscriptions holds the lock for at most the attempt bound, `k`
      unsubscribe bounds and one disconnect bound, wherever the attempt bound
      fires; and for no longer than the attempt bound if it did not fire. */
  lemma {:induction false} LockHoldBound(s: Session, b: Bounds, attemptTimeout: nat, k: nat)
    requires Depth(s.connect) == 0 && Depth(s.settle) == 0 && Depth(s.block) <= k
    ensures 0 <= HoldTime(s, b, attemptTimeout) <= attemptTimeout + k * b.stopNotify + b.disconnect
    ensures RunSession(s, b, 0, Some(attemptTimeout)).end != Cancelled ==>
      HoldTime(s, b, attemptTimeout) <= attemptTimeout
  {
    SessionInTime(s, b, 0, attemptTimeout);
    CleanupByDepth(s.connect, b.stopNotify);
    CleanupByDepth(s.settle, b.stopNotify);
    CleanupByDepth(s.block, b.stopNotify);
    TimesGrows(Depth(s.block), k, b.stopNotify);
  }

  // ── And no smaller bound holds ───────────────────────────────────────────

  /** `k` subscriptions around a wait that never ends, whose unsubscribes hang too. */
  function Nested(k: nat): Work {
    if k == 0 then Await(None, false) else Subscribed(Await(Some(0), false), None, Nested(k - 1), true, None)
  }

  /** One subscription around a body that the bound has cancelled adds its own bound. */
  lemma {:induction false} NestedStep(k: nat, b: Bounds, now: int, fires: int)
    requires k > 0 && now <= fires
    ensures var inner := RunWork(Nested(k - 1), b, now, Some(fires));
      inner.end == Cancelled && inner.left.None? ==>
        RunWork(Nested(k), b, now, Some(fires)) == Moment(Cancelled, inner.at + b.stopNotify, None)
    ensures Depth(Nested(k)) == 1 + Depth(Nested(k - 1))
  {
    assert Nested(k) == Subscribed(Await(Some(0), false), None, Nested(k - 1), true, None);
    assert RunWork(Await(Some(0), false), b, now, Some(fires)) == Moment(Finished, now, Some(fires));
  }

  lemma {:induction false} NestedHangs(k: nat, b: Bounds, now: int, fires: int)
    requires now <= fires
    ensures RunWork(Nested(k), b, now, Some(fires)) == Moment(Cancelled, fires + Times(k, b.stopNotify), None)
    ensures Depth(Nested(k)) == k
  {
    if k > 0 {
      NestedHangs(k - 1, b, now, fires);
      NestedStep(k, b, now, fires);
    }
  }

  /** The worst session reaches the bound exactly, for every nesting depth. */
  lemma {:induction false} LockHoldBoundIsReached(b: Bounds, attemptTimeout: nat, k: nat)
    ensures exists s: Session ::
      && Depth(s.connect) == 0 && Depth(s.settle) == 0 && Depth(s.block) == k
      && HoldTime(s, b, attemptTimeout) == attemptTimeout + k * b.stopNotify + b.disconnect
  {
    NestedHangs(k, b, 0, attemptTimeout);
    var s := Session(None, Await(Some(0), false), Await(Some(0), false), Nested(k), false, None);
    assert HoldTime(s, b, attemptTimeout) == attemptTimeout + Times(k, b.stopNotify) + b.disconnect;
  }
}
