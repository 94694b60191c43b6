/** What `next`, `wait_for`, `next_burst` and the idle stretches between them come
    to along a schedule, built from single waits (see TimedWait). */
module Waits {
  import opened Ble
  import opened TimedWait
  import opened WaitMachine

  /** The outcome of a single wait as its caller is told it. */
  function Told(end: WaitEnd, step: string): Result<Frame> {
    match end
    case Delivered(f) => Returned(f)
    case Dropped => Raised(SessionDropped(step))
    case Stopped(expired) => Raised(if expired then NotificationTimeout(step) else CancelledError)
    case Suspended => Unfinished
  }

  /** What a call has done between two moments: the frames it took, in order, and
      that everything else that has arrived is still unread, in order. */
  predicate Took(m: Moment, taken: seq<Frame>, e: Moment, env: seq<Env>, from: nat, upto: nat) {
    && Inv(e.state) && Along(m.state, e.state, env, from, upto) && m.now <= e.now
    && e.state.consumed == m.state.consumed + taken
    && e.state.arrivals == e.state.consumed + Unread(e.state)
  }

  /** What stops a call that began at `begun` with this deadline. */
  predicate CutOff(begun: int, limit: int, env: seq<Env>, from: nat, upto: nat)
    requires from <= upto <= |env|
  {
    OccursIn(Cancel, env, from, upto) || Rings(begun, Some(limit), env, from, upto)
  }

  /** What a call that got no frame came to: a cancellation and a timer that fired end it
      each in its own error, and without either there is only the drop to end it. */
  predicate Failed<T>(
      begun: int, e: Moment, r: Result<T>, step: string, limit: int, env: seq<Env>, from: nat, upto: nat)
    requires from <= upto <= |env|
  {
    match r
    case Returned(_) => false
    case Raised(error) =>
      if OccursIn(Cancel, env, from, upto) then error == CancelledError
      else if Rings(begun, Some(limit), env, from, upto) then error == NotificationTimeout(step)
      else error == SessionDropped(step) && e.state.dropped && e.state.beforeDrop <= |e.state.consumed|
    case Unfinished =>
      && e.state.waiter != NotWaiting && upto == |env|
      && (Raises(e.state) <==> CutOff(begun, limit, env, from, upto))
  }

  lemma {:induction false} TookJoin(
      m: Moment, a: seq<Frame>, n: Moment, b: seq<Frame>, e: Moment, env: seq<Env>, from: nat, mid: nat, upto: nat)
    requires Took(m, a, n, env, from, mid) && Took(n, b, e, env, mid, upto)
    ensures Took(m, a + b, e, env, from, upto)
  {
    hide Inv;
    AlongJoin(m.state, n.state, e.state, env, from, mid, upto);
  }

  /** The time of a scope that began at `begun`, after a stretch of the schedule. */
  predicate OnTime(begun: int, e: Moment, limit: int, env: seq<Env>, from: nat, upto: nat)
    requires from <= upto <= |env|
  {
    e.now == Clock(begun, Some(limit), TimeIn(env, from, upto))
  }

  /** A scope seen in two stretches, with nothing to stop it in the first. */
  lemma {:induction false} CutOffLater(begun: int, mid: Moment, limit: int, env: seq<Env>, a: nat, b: nat, c: nat)
    requires a <= b <= c <= |env| && !CutOff(begun, limit, env, a, b) && OnTime(begun, mid, limit, env, a, b)
    ensures OccursIn(Cancel, env, a, c) <==> OccursIn(Cancel, env, b, c)
    ensures Rings(begun, Some(limit), env, a, c) <==> Rings(mid.now, Some(limit), env, b, c)
    ensures forall e :: OnTime(mid.now, e, limit, env, b, c) ==> OnTime(begun, e, limit, env, a, c)
  {
    StretchJoin(env, a, b, c, Cancel);
    RingsJoin(begun, Some(limit), env, a, b, c);
  }

  lemma {:induction false} TookNothing(m: Moment, env: seq<Env>, from: nat)
    requires Inv(m.state) && from <= |env|
    ensures Took(m, [], m, env, from, from)
  {}

  /** `clear` takes all that is queued. */
  lemma {:induction false} ClearTakes(m: Moment, env: seq<Env>, from: nat)
    requires Inv(m.state) && m.state.waiter == NotWaiting && from <= |env|
    ensures var c := Cleared(m);
      Took(m, m.state.queue, c, env, from, from) && c.state.queue == [] && c.state.waiter == NotWaiting
  {
    NextInv(m.state, Clear);
    OwnStepAlong(m.state, Clear, env, from);
  }

  function Cleared(m: Moment): Moment {
    m.(state := Next(m.state, Clear))
  }

  // ── next ─────────────────────────────────────────────────────────────────

  function NextFrom(m: Moment, timeout: int, step: string, env: seq<Env>, from: nat): (e: Ended<Result<Frame>>)
    requires from <= |env|
    ensures from <= e.upto <= |env|
  {
    var w := WaitFrom(m, Some(m.now + timeout), env, from);
    Ended(w.at, w.upto, Told(w.r, step))
  }

  /** One wait, as far as its caller can tell. */
  lemma {:induction false} WaitTook(m: Moment, limit: int, step: string, env: seq<Env>, from: nat)
    requires Inv(m.state) && m.state.waiter == NotWaiting && from <= |env|
    ensures var w := WaitFrom(m, Some(limit), env, from);
      && Took(m, if w.r.Delivered? then [w.r.frame] else [], w.at, env, from, w.upto)
      && OnTime(m.now, w.at, limit, env, from, w.upto) && (w.r == Suspended <==> w.at.state.waiter != NotWaiting)
      && (if w.r.Delivered? then !CutOff(m.now, limit, env, from, w.upto)
          else Failed(m.now, w.at, Told(w.r, step), step, limit, env, from, w.upto))
  {
    hide Inv, Along, Rings;
    WaitExplained(m, Some(limit), env, from);
    var w := WaitFrom(m, Some(limit), env, from);
  }

  lemma {:induction false} NextExplained(m: Moment, timeout: int, step: string, env: seq<Env>, from: nat)
    requires Inv(m.state) && m.state.waiter == NotWaiting && from <= |env|
    ensures var e, limit := NextFrom(m, timeout, step, env, from), m.now + timeout;
      && Took(m, if e.r.Returned? then [e.r.value] else [], e.at, env, from, e.upto)
      && OnTime(m.now, e.at, limit, env, from, e.upto) && (e.r.Unfinished? <==> e.at.state.waiter != NotWaiting)
      && (if e.r.Returned? then !CutOff(m.now, limit, env, from, e.upto)
          else Failed(m.now, e.at, e.r, step, limit, env, from, e.upto))
  {
    hide Took, Failed, Inv, WaitFrom, CutOff, OnTime;
    WaitTook(m, m.now + timeout, step, env, from);
  }

  /** What a loop came to that took these frames before the rest of it. */
  function After<T>(taken: seq<Frame>, rest: (seq<Frame>, Ended<T>)): (seq<Frame>, Ended<T>) {
    (taken + rest.0, rest.1)
  }

  lemma {:induction false} AfterNone<T>(rest: (seq<Frame>, Ended<T>))
    ensures After([], rest) == rest
  {
    assert [] + rest.0 == rest.0;
  }

  lemma {:induction false} AfterJoin<T>(a: seq<Frame>, b: seq<Frame>, rest: (seq<Frame>, Ended<T>))
    ensures After(a + b, rest) == After(a, After(b, rest))
  {
    assert (a + b) + rest.0 == a + (b + rest.0);
  }

  // ── wait_for ─────────────────────────────────────────────────────────────

  /** The frames taken, the rejected ones and the last, and the outcome. */
  function SiftFrom(accept: Frame -> Verdict, m: Moment, limit: int, step: string, env: seq<Env>, from: nat)
    : (e: (seq<Frame>, Ended<Result<Frame>>))
    requires from <= |env| && m.state.waiter == NotWaiting
    ensures from <= e.1.upto <= |env|
    decreases |env| - from, |m.state.queue|
  {
    var w := WaitFrom(m, Some(limit), env, from);
    if !w.r.Delivered? then ([], Ended(w.at, w.upto, Told(w.r, step))) else
      match accept(w.r.frame)
      case Accept => ([w.r.frame], Ended(w.at, w.upto, Returned(w.r.frame)))
      case Raise(error) => ([w.r.frame], Ended(w.at, w.upto, Raised(error)))
      case Reject =>
        After([w.r.frame], SiftFrom(accept, w.at, limit, step, env, w.upto))
  }

  predicate AllRejected(accept: Frame -> Verdict, taken: seq<Frame>) {
    forall f <- taken :: accept(f) == Reject
  }

  /** What a `wait_for` that took these frames made of them: it goes on past a
      frame exactly when `accept` turns it down. */
  predicate Sifted(accept: Frame -> Verdict, taken: seq<Frame>, r: Result<Frame>) {
    var n := |taken| - 1;
    match r
    case Returned(f) => n >= 0 && taken[n] == f && accept(f) == Accept && AllRejected(accept, taken[..n])
    case Raised(e) =>
      AllRejected(accept, taken) || (n >= 0 && accept(taken[n]) == Raise(e) && AllRejected(accept, taken[..n]))
    case Unfinished => AllRejected(accept, taken)
  }

  lemma {:induction false} SiftedAfter(accept: Frame -> Verdict, f: Frame, rest: seq<Frame>, r: Result<Frame>)
    requires accept(f) == Reject && Sifted(accept, rest, r)
    ensures Sifted(accept, [f] + rest, r) && AllRejected(accept, [f] + rest) == AllRejected(accept, rest)
  {
    var all := [f] + rest;
    if rest != [] { assert all[..|all| - 1] == [f] + rest[..|rest| - 1]; }
    assert forall g <- rest :: g in all;
  }

  /** `wait_for` returns the first frame `accept` takes, raises what it makes of one,
      or fails as a wait fails with every frame so far turned down; it is stopped by
      nothing but its one deadline and a cancellation. */
  lemma {:induction false} SiftExplained(
      accept: Frame -> Verdict, m: Moment, limit: int, step: string, env: seq<Env>, from: nat)
    requires Inv(m.state) && m.state.waiter == NotWaiting && from <= |env|
    ensures var (taken, e) := SiftFrom(accept, m, limit, step, env, from);
      && Took(m, taken, e.at, env, from, e.upto) && Sifted(accept, taken, e.r)
      && OnTime(m.now, e.at, limit, env, from, e.upto) && (e.r.Unfinished? <==> e.at.state.waiter != NotWaiting)
      && (if AllRejected(accept, taken) then Failed(m.now, e.at, e.r, step, limit, env, from, e.upto)
          else !CutOff(m.now, limit, env, from, e.upto))
    decreases |env| - from, |m.state.queue|
  {
    hide Along, Inv, Next, WaitFrom, Rings, OnTime;
    var w := WaitFrom(m, Some(limit), env, from);
    WaitTook(m, limit, step, env, from);
    if w.r.Delivered? && accept(w.r.frame) == Reject {
      SiftExplained(accept, w.at, limit, step, env, w.upto);
      var (rest, e) := SiftFrom(accept, w.at, limit, step, env, w.upto);
      TookJoin(m, [w.r.frame], w.at, rest, e.at, env, from, w.upto, e.upto);
      SiftedAfter(accept, w.r.frame, rest, e.r);
      CutOffLater(m.now, w.at, limit, env, from, w.upto, e.upto);
    }
  }

  // ── next_burst ───────────────────────────────────────────────────────────

  /** One round of the collecting: what is queued, then one wait of at most `gap`
      and never past `deadline`. The frames of the round, and how the burst ends if
      it ends here. */
  function RoundFrom(gap: int, deadline: int, m: Moment, env: seq<Env>, from: nat)
    : (e: (seq<Frame>, Ended<Option<Result<()>>>))
    requires from <= |env| && m.state.waiter == NotWaiting
    ensures from <= e.1.upto <= |env|
    ensures e.1.r.None? ==> from < e.1.upto && e.1.at.state.waiter == NotWaiting
  {
    var c, wait := Cleared(m), Min(gap, deadline - m.now);
    if wait <= 0 then (m.state.queue, Ended(c, from, Some(Returned(())))) else
      var w := WaitFrom(c, Some(m.now + wait), env, from);
      if w.r.Delivered? then (m.state.queue + [w.r.frame], Ended(w.at, w.upto, None))
      else (m.state.queue, Ended(w.at, w.upto, Some(RoundEnd(w.r))))
  }

  /** A drop and a full gap of silence end the burst, anything else the call. */
  function RoundEnd(end: WaitEnd): Result<()> {
    match end
    case Stopped(false) => Raised(CancelledError)
    case Suspended => Unfinished
    case _ => Returned(())
  }

  function CollectFrom(gap: int, deadline: int, m: Moment, env: seq<Env>, from: nat)
    : (e: (seq<Frame>, Ended<Result<()>>))
    requires from <= |env| && m.state.waiter == NotWaiting
    ensures from <= e.1.upto <= |env|
    decreases |env| - from
  {
    var (more, round) := RoundFrom(gap, deadline, m, env, from);
    if round.r.Some? then (more, Ended(round.at, round.upto, round.r.value)) else
      After(more, CollectFrom(gap, deadline, round.at, env, round.upto))
  }

  /** Where the last round begins: with the last frame that was waited for. */
  function LastRound(gap: int, deadline: int, m: Moment, env: seq<Env>, from: nat): Moment
    requires from <= |env| && m.state.waiter == NotWaiting
    decreases |env| - from
  {
    var round := RoundFrom(gap, deadline, m, env, from).1;
    if round.r.Some? then m else LastRound(gap, deadline, round.at, env, round.upto)
  }

  /** The frames taken, and the outcome. */
  function BurstFrom(m: Moment, timeout: int, gap: int, step: string, env: seq<Env>, from: nat)
    : (e: (seq<Frame>, Ended<Result<Bytes>>))
    requires from <= |env| && m.state.waiter == NotWaiting
    ensures from <= e.1.upto <= |env|
  {
    var first := NextFrom(m, timeout, step, env, from);
    match first.r
    case Raised(error) => ([], Ended(first.at, first.upto, Raised(error)))
    case Unfinished => ([], Ended(first.at, first.upto, Unfinished))
    case Returned(f) =>
      var (more, rest) := CollectFrom(gap, m.now + timeout, first.at, env, first.upto);
      ([f] + more, Ended(rest.at, rest.upto, Joined([f] + more, rest.r)))
  }

  function Joined(taken: seq<Frame>, r: Result<()>): Result<Bytes> {
    match r
    case Returned(_) => Returned(Join(taken))
    case Raised(error) => Raised(error)
    case Unfinished => Unfinished
  }

  /** How long the last round of a burst may wait, begun in `last`. */
  function RoundLimit(last: Moment, gap: int, deadline: int): int {
    Max(last.now, Min(last.now + gap, deadline))
  }

  /** What ended a burst that began its last round in `last`: the gap since the last
      frame or the deadline, or a drop with all that came before it taken. One that
      goes on is being stopped exactly when its time is up or it was cancelled. */
  predicate Complete<T>(last: Moment, e: Moment, r: Result<T>, gap: int, deadline: int, cancelled: bool) {
    && e.now <= RoundLimit(last, gap, deadline)
    && match r
       case Returned(_) =>
         && !cancelled && e.state.consumed == last.state.consumed + last.state.queue
         && (e.now == RoundLimit(last, gap, deadline) || (e.state.dropped && e.state.beforeDrop <= |e.state.consumed|))
       case Raised(error) => cancelled && error == CancelledError
       case Unfinished => Raises(e.state) <==> cancelled || e.now == RoundLimit(last, gap, deadline)
  }

  lemma {:induction false} RoundExplained(gap: int, deadline: int, m: Moment, env: seq<Env>, from: nat)
    requires Inv(m.state) && m.state.waiter == NotWaiting && from <= |env|
    ensures var (more, e) := RoundFrom(gap, deadline, m, env, from);
      && Took(m, more, e.at, env, from, e.upto) && e.at.now <= RoundLimit(m, gap, deadline)
      && e.at.now <= m.now + TimeIn(env, from, e.upto)
      && (e.r.None? ==>
            !OccursIn(Cancel, env, from, e.upto) && e.at.now == m.now + TimeIn(env, from, e.upto))
      && (e.r.Some? ==>
            && CollectEnd(e.at, e.r.value, env, e.upto)
            && Complete(m, e.at, e.r.value, gap, deadline, OccursIn(Cancel, env, from, e.upto)))
  {
    hide Along, Inv, Next, WaitFrom;
    var c, wait := Cleared(m), Min(gap, deadline - m.now);
    ClearTakes(m, env, from);
    if wait > 0 {
      var w := WaitFrom(c, Some(m.now + wait), env, from);
      TookInv(m, m.state.queue, c, env, from, from);
      WaitTook(c, m.now + wait, "", env, from);
      var last := if w.r.Delivered? then [w.r.frame] else [];
      TookJoin(m, m.state.queue, c, last, w.at, env, from, from, w.upto);
      TimeJoin(env, from, w.upto, w.upto);
      assert m.state.queue + [] == m.state.queue;
    }
  }

  lemma {:induction false} TookInv(m: Moment, taken: seq<Frame>, e: Moment, env: seq<Env>, from: nat, upto: nat)
    requires Took(m, taken, e, env, from, upto)
    ensures Inv(e.state)
  {}

  /** Only a collecting at the end of the schedule is still waiting. */
  predicate CollectEnd(e: Moment, r: Result<()>, env: seq<Env>, upto: nat) {
    if r.Unfinished? then e.state.waiter != NotWaiting && upto == |env| else e.state.waiter == NotWaiting
  }

  lemma {:induction false} CollectExplained(gap: int, deadline: int, m: Moment, env: seq<Env>, from: nat)
    requires Inv(m.state) && m.state.waiter == NotWaiting && from <= |env|
    ensures var (more, e) := CollectFrom(gap, deadline, m, env, from);
      && Took(m, more, e.at, env, from, e.upto) && e.at.now <= Max(m.now, deadline)
      && e.at.now <= m.now + TimeIn(env, from, e.upto)
      && CollectEnd(e.at, e.r, env, e.upto)
      && Complete(LastRound(gap, deadline, m, env, from), e.at, e.r, gap, deadline,
                  OccursIn(Cancel, env, from, e.upto))
    decreases |env| - from
  {
    hide Along, Inv, RoundFrom, Complete, OccursIn;
    RoundExplained(gap, deadline, m, env, from);
    var (more, round) := RoundFrom(gap, deadline, m, env, from);
    if round.r.None? {
      CollectExplained(gap, deadline, round.at, env, round.upto);
      var (rest, e) := CollectFrom(gap, deadline, round.at, env, round.upto);
      TookJoin(m, more, round.at, rest, e.at, env, from, round.upto, e.upto);
      StretchJoin(env, from, round.upto, e.upto, Cancel);
      TimeJoin(env, from, round.upto, e.upto);
    }
  }

  /** A returned burst is the join of a non-empty prefix of what was unread, the rest
      is in the queue in order, a frame the gap's timer put back at its head. Its first
      frame is waited for as `next` waits; after that nothing but a cancellation
      makes it raise, and every cancellation does. */
  lemma {:induction false} BurstExplained(
      m: Moment, timeout: int, gap: int, step: string, env: seq<Env>, from: nat)
    requires Inv(m.state) && m.state.waiter == NotWaiting && from <= |env|
    ensures var (taken, e) := BurstFrom(m, timeout, gap, step, env, from);
      && Took(m, taken, e.at, env, from, e.upto) && e.at.now <= Max(m.now, m.now + timeout)
      && e.at.now <= m.now + TimeIn(env, from, e.upto)
      && (e.r.Unfinished? <==> e.at.state.waiter != NotWaiting)
      && (taken == [] ==> Failed(m.now, e.at, e.r, step, m.now + timeout, env, from, e.upto))
      && (taken != [] ==>
            match e.r
            case Returned(bytes) => bytes == Join(taken) && e.at.state.getter == NoGetter
            case Raised(error) => error == CancelledError
            case Unfinished => e.upto == |env|)
      && (e.r == Raised(CancelledError) ==> OccursIn(Cancel, env, from, e.upto))
      && (OccursIn(Cancel, env, from, e.upto) ==>
            e.r == Raised(CancelledError) || (e.r.Unfinished? && Raises(e.at.state)))
  {
    hide Along, Inv, NextFrom, CollectFrom, Rings, TimeIn, OccursIn;
    var first := NextFrom(m, timeout, step, env, from);
    NextExplained(m, timeout, step, env, from);
    if first.r.Returned? {
      CollectExplained(gap, m.now + timeout, first.at, env, first.upto);
      var (more, rest) := CollectFrom(gap, m.now + timeout, first.at, env, first.upto);
      TookJoin(m, [first.r.value], first.at, more, rest.at, env, from, first.upto, rest.upto);
      StretchJoin(env, from, first.upto, rest.upto, Cancel);
      TimeJoin(env, from, first.upto, rest.upto);
      TookInv(first.at, more, rest.at, env, first.upto, rest.upto);
      if rest.r.Returned? { NothingHeld(rest.at.state); }
    }
  }

  lemma {:induction false} NothingHeld(s: State)
    requires Inv(s) && s.waiter == NotWaiting
    ensures s.getter == NoGetter && Unread(s) == s.queue
  {}

  /** A burst that has its first frame returns exactly when a gap of silence has passed
      since its last frame, at the deadline, or on a drop with everything from before
      it taken, and never later. */
  lemma {:induction false} BurstEndsForCause(
      m: Moment, timeout: int, gap: int, step: string, env: seq<Env>, from: nat)
    requires Inv(m.state) && m.state.waiter == NotWaiting && from <= |env|
    requires NextFrom(m, timeout, step, env, from).r.Returned?
    ensures var first, (_, e) := NextFrom(m, timeout, step, env, from), BurstFrom(m, timeout, gap, step, env, from);
      && first.at.state.waiter == NotWaiting
      && first.upto <= e.upto
      && Complete(LastRound(gap, m.now + timeout, first.at, env, first.upto), e.at, e.r, gap, m.now + timeout,
                  OccursIn(Cancel, env, first.upto, e.upto))
  {
    hide Took, Failed, Inv, NextFrom, CollectFrom, LastRound, OccursIn;
    var first := NextFrom(m, timeout, step, env, from);
    NextExplained(m, timeout, step, env, from);
    TookInv(m, [first.r.value], first.at, env, from, first.upto);
    CollectExplained(gap, m.now + timeout, first.at, env, first.upto);
  }

  /** Without a gap a burst is one wait and then one `clear`: the first frame and what
      is queued when it comes, and nothing else is awaited. */
  lemma {:induction false} BurstWithoutGap(
      m: Moment, timeout: int, gap: int, step: string, env: seq<Env>, from: nat)
    requires m.state.waiter == NotWaiting && from <= |env| && gap <= 0
    ensures var first, (taken, e) := NextFrom(m, timeout, step, env, from), BurstFrom(m, timeout, gap, step, env, from);
      && e.upto == first.upto
      && (first.r.Returned? <==> e.r.Returned?)
      && (first.r.Returned? ==> e.at == Cleared(first.at) && taken == [first.r.value] + first.at.state.queue)
      && (!first.r.Returned? ==> e.at == first.at && taken == [])
  {
    assert RoundFrom(gap, m.now + timeout, m, env, from).1.r.Some?;
  }

  /** With frames queued already, they are the burst, and no time passes. */
  lemma {:induction false} QueuedBurst(m: Moment, timeout: int, gap: int, step: string, env: seq<Env>, from: nat)
    requires m.state.waiter == NotWaiting && m.state.queue != [] && from <= |env| && gap <= 0
    ensures var (taken, e) := BurstFrom(m, timeout, gap, step, env, from);
      && e.r == Returned(Join(m.state.queue)) && taken == m.state.queue
      && e.upto == from && e.at.now == m.now && e.at.state.queue == []
  {
    QueuedIsNext(m, Some(m.now + timeout), env, from);
    BurstWithoutGap(m, timeout, gap, step, env, from);
    assert [m.state.queue[0]] + m.state.queue[1..] == m.state.queue;
  }

  // ── Between waits ────────────────────────────────────────────────────────

  /** The task is in some other await: the loop goes on, no wait of this object runs. */
  function IdleFrom(m: Moment, env: seq<Env>, from: nat, upto: nat): Moment
    requires from <= upto <= |env|
    decreases upto - from
  {
    if from == upto then m else IdleFrom(Idle(m, env[from]), env, from + 1, upto)
  }

  function Idle(m: Moment, e: Env): Moment {
    match e
    case Elapse(d) => m.(now := m.now + d)
    case Step(e) => if Outside(e) then m.(state := Next(m.state, e)) else m
  }

  lemma {:induction false} IdleStep(s: State, e: Event)
    requires Inv(s) && s.waiter == NotWaiting && Outside(e)
    ensures var t := Next(s, e); Inv(t) && t.waiter == NotWaiting && t.consumed == s.consumed
  {
    NextInv(s, e);
    NextIsFifo(s, e);
    if e == Turn && s.ready != [] { assert s.ready[0] != WakeWaiter; }
  }

  lemma {:induction false} IdleTakesNothing(m: Moment, env: seq<Env>, from: nat, upto: nat)
    requires Inv(m.state) && m.state.waiter == NotWaiting && from <= upto <= |env|
    ensures var e := IdleFrom(m, env, from, upto);
      Took(m, [], e, env, from, upto) && e.state.waiter == NotWaiting && e.now == m.now + TimeIn(env, from, upto)
    decreases upto - from
  {
    if from < upto {
      var n := Idle(m, env[from]);
      OneIdle(m, env, from);
      TookInv(m, [], n, env, from, from + 1);
      IdleTakesNothing(n, env, from + 1, upto);
      TookJoin(m, [], n, [], IdleFrom(n, env, from + 1, upto), env, from, from + 1, upto);
    } else {
      TookNothing(m, env, from);
    }
  }

  lemma {:induction false} OneIdle(m: Moment, env: seq<Env>, from: nat)
    requires Inv(m.state) && m.state.waiter == NotWaiting && from < |env|
    ensures var n := Idle(m, env[from]); Took(m, [], n, env, from, from + 1) && n.state.waiter == NotWaiting
  {
    hide Next;
    if env[from].Step? && Outside(env[from].event) {
      IdleStep(m.state, env[from].event);
      StepAlong(m.state, env[from].event, env, from);
    } else {
      QuietEntry(m.state, env, from);
    }
  }

  // ── request ──────────────────────────────────────────────────────────────

  /** Where a request that began in `m` starts to wait for its reply: everything
      received is cleared, then the write and the pause pass. */
  function AskedAt(m: Moment, env: seq<Env>, from: nat, written: nat, paced: nat): Moment
    requires from <= written <= paced <= |env|
  {
    IdleFrom(IdleFrom(Cleared(m), env, from, written), env, written, paced)
  }

  /** The frames taken, and the outcome. */
  function ReplyFrom(accept: Option<Frame -> Verdict>, m: Moment, timeout: int, step: string, env: seq<Env>, from: nat)
    : (seq<Frame>, Ended<Result<Frame>>)
    requires from <= |env| && m.state.waiter == NotWaiting
  {
    if accept.None? then
      var e := NextFrom(m, timeout, step, env, from);
      (if e.r.Returned? then [e.r.value] else [], e)
    else SiftFrom(accept.value, m, m.now + timeout, step, env, from)
  }

  lemma {:induction false} AskedFresh(m: Moment, env: seq<Env>, from: nat, written: nat, paced: nat)
    requires Inv(m.state) && m.state.waiter == NotWaiting && from <= written <= paced <= |env|
    ensures var asked := AskedAt(m, env, from, written, paced);
      && Took(m, m.state.queue, asked, env, from, paced) && asked.state.waiter == NotWaiting
      && asked.state.consumed == m.state.arrivals && asked.now == m.now + TimeIn(env, from, paced)
  {
    hide Along, Inv;
    var c := Cleared(m);
    ClearTakes(m, env, from);
    TookInv(m, m.state.queue, c, env, from, from);
    IdleTakesNothing(c, env, from, written);
    var sent := IdleFrom(c, env, from, written);
    TookJoin(m, m.state.queue, c, [], sent, env, from, from, written);
    TookInv(c, [], sent, env, from, written);
    IdleTakesNothing(sent, env, written, paced);
    assert m.state.queue + [] == m.state.queue;
    TookJoin(m, m.state.queue, sent, [], IdleFrom(sent, env, written, paced), env, from, written, paced);
    TimeJoin(env, from, written, paced);
    AllRead(m.state);
  }

  lemma {:induction false} AllRead(s: State)
    requires Inv(s) && s.waiter == NotWaiting
    ensures s.consumed + s.queue == s.arrivals
  {}

  /** The reply to a request arrived after everything that had arrived when the
      request began; it is the first frame since then that `accept` takes, or the
      first there is; a request without a reply failed for a cause, and neither its
      deadline nor a cancellation leaves it waiting. */
  lemma {:induction false} ReplyExplained(
      m: Moment, accept: Option<Frame -> Verdict>, timeout: int, step: string,
      env: seq<Env>, from: nat, written: nat, paced: nat)
    requires Inv(m.state) && m.state.waiter == NotWaiting && from <= written <= paced <= |env|
    ensures var asked := AskedAt(m, env, from, written, paced);
      asked.state.waiter == NotWaiting &&
      var (taken, e) := ReplyFrom(accept, asked, timeout, step, env, paced);
      && paced <= e.upto <= |env|
      && Took(m, m.state.queue + taken, e.at, env, from, e.upto)
      && e.at.state.consumed == m.state.arrivals + taken
      && asked.now == m.now + TimeIn(env, from, paced)
      && OnTime(asked.now, e.at, asked.now + timeout, env, paced, e.upto)
      && (e.r.Unfinished? <==> e.at.state.waiter != NotWaiting)
      && (accept.None? ==> |taken| <= 1 && (taken != [] <==> e.r.Returned?))
      && (accept.Some? ==> Sifted(accept.value, taken, e.r))
      && (e.r.Returned? ==> taken != [] && e.r.value == taken[|taken| - 1])
      && (if taken == [] || (accept.Some? && AllRejected(accept.value, taken))
          then Failed(asked.now, e.at, e.r, step, asked.now + timeout, env, paced, e.upto)
          else !CutOff(asked.now, asked.now + timeout, env, paced, e.upto))
  {
    hide Along, Inv, AskedAt, NextFrom, SiftFrom, Failed, CutOff, OnTime;
    var asked := AskedAt(m, env, from, written, paced);
    AskedFresh(m, env, from, written, paced);
    TookInv(m, m.state.queue, asked, env, from, paced);
    if accept.None? {
      NextExplained(asked, timeout, step, env, paced);
    } else {
      SiftExplained(accept.value, asked, asked.now + timeout, step, env, paced);
    }
    var (taken, e) := ReplyFrom(accept, asked, timeout, step, env, paced);
    TookJoin(m, m.state.queue, asked, taken, e.at, env, from, paced, e.upto);
  }
}
