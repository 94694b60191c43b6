/** What the waits of a `Notifications` object come to along a schedule.

    A schedule is data: each entry is a step of the event loop (see WaitMachine)
    or a passage of time, and a wait reads entries until it has ended. A scope's
    timer fires at its deadline, at whatever step the loop has reached by then,
    so also between a frame being taken off the queue and the waiter resuming.
    Timers are ideal only in that time stands still from there until the wait
    has ended. The functions say where a wait ends and how, the lemmas what
    that means; the methods of the object are proved to do just that. */
module TimedWait {
  import opened Ble
  import opened WaitMachine

  datatype Env = Step(event: Event) | Elapse(time: nat)

  datatype Moment = Moment(state: State, now: int)

  /** A wait under way: whether its scope's timer has fired, and whether anyone
      else has cancelled it. */
  datatype Running = Running(at: Moment, fired: bool, outside: bool)

  /** How one `_next` ended; `expired` when the scope's own timer, and nothing
      else, cancelled it. `Suspended`: the schedule is over and it still waits. */
  datatype WaitEnd = Delivered(frame: Frame) | Dropped | Stopped(expired: bool) | Suspended

  /** Where a call ended, how far it read the schedule, and what it came to. */
  datatype Ended<T> = Ended(at: Moment, upto: nat, r: T)

  datatype Verdict = Accept | Reject | Raise(error: Error)

  function Max(a: int, b: int): int { if a < b then b else a }

  function Min(a: int, b: int): int { if a < b then a else b }

  // ── One wait ─────────────────────────────────────────────────────────────

  /** Steps of the task's own code are not the schedule's to take. */
  predicate Outside(e: Event) { e != StartWait && e != Clear }

  function Advance(w: Running, limit: Option<int>, e: Env): Running {
    match e
    case Elapse(d) =>
      if w.fired then w
      else if limit.Some? && w.at.now + d >= limit.value then
        Running(Moment(Next(w.at.state, Cancel), Max(w.at.now, limit.value)), true, w.outside)
      else w.(at := w.at.(now := w.at.now + d))
    case Step(e) =>
      if Outside(e) then Running(Moment(Next(w.at.state, e), w.at.now), w.fired, w.outside || e == Cancel) else w
  }

  function Wait(w: Running, limit: Option<int>, env: seq<Env>, from: nat): (r: (Running, nat))
    requires from <= |env|
    ensures from <= r.1 <= |env|
    ensures w.at.state.waiter != NotWaiting && r.0.at.state.waiter == NotWaiting ==> from < r.1
    ensures r.0.at.state.waiter != NotWaiting ==> r.1 == |env|
    decreases |env| - from
  {
    if from == |env| || w.at.state.waiter == NotWaiting then (w, from)
    else Wait(Advance(w, limit, env[from]), limit, env, from + 1)
  }

  function EndOf(w: Running): WaitEnd {
    if w.at.state.waiter != NotWaiting then Suspended else
      match w.at.state.outcome
      case Got(f) => Delivered(f)
      case SawDrop => Dropped
      case _ => Stopped(!w.outside)
  }

  function Begin(m: Moment): Running {
    Running(m.(state := Next(m.state, StartWait)), false, false)
  }

  /** `_next` in a timeout scope that ends at `limit`. */
  function WaitFrom(m: Moment, limit: Option<int>, env: seq<Env>, from: nat): (e: Ended<WaitEnd>)
    requires from <= |env|
    ensures from <= e.upto <= |env|
    ensures e.r.Delivered? && m.state.waiter == NotWaiting ==>
      e.at.state.waiter == NotWaiting && (from < e.upto || |e.at.state.queue| < |m.state.queue|)
  {
    var w := Wait(Begin(m), limit, env, from);
    Ended(w.0.at, w.1, EndOf(w.0))
  }

  // ── The schedule of a stretch ────────────────────────────────────────────

  /** The frames that arrive in a stretch of the schedule, in order. */
  function ReceivedIn(env: seq<Env>, from: nat, upto: nat): seq<Frame>
    requires from <= upto <= |env|
    decreases upto - from
  {
    if from == upto then [] else
      (if env[from].Step? && env[from].event.Arrive? then [env[from].event.frame] else [])
      + ReceivedIn(env, from + 1, upto)
  }

  /** Some entry of the stretch is this event. */
  predicate OccursIn(e: Event, env: seq<Env>, from: nat, upto: nat)
    requires from <= upto <= |env|
    decreases upto - from
  {
    from < upto && (env[from] == Step(e) || OccursIn(e, env, from + 1, upto))
  }

  lemma {:induction false} StretchJoin(env: seq<Env>, a: nat, b: nat, c: nat, e: Event)
    requires a <= b <= c <= |env|
    ensures ReceivedIn(env, a, c) == ReceivedIn(env, a, b) + ReceivedIn(env, b, c)
    ensures OccursIn(e, env, a, c) <==> OccursIn(e, env, a, b) || OccursIn(e, env, b, c)
    decreases b - a
  {
    if a < b { StretchJoin(env, a + 1, b, c, e); }
  }

  /** The time that passes in a stretch. */
  function TimeIn(env: seq<Env>, from: nat, upto: nat): nat
    requires from <= upto <= |env|
    decreases upto - from
  {
    if from == upto then 0 else (if env[from].Elapse? then env[from].time else 0) + TimeIn(env, from + 1, upto)
  }

  /** A timer gets to look at the clock somewhere in the stretch. */
  predicate Passes(env: seq<Env>, from: nat, upto: nat)
    requires from <= upto <= |env|
    decreases upto - from
  {
    from < upto && (env[from].Elapse? || Passes(env, from + 1, upto))
  }

  /** By then a timer set at `begun` for `limit` has fired. */
  predicate Rings(begun: int, limit: Option<int>, env: seq<Env>, from: nat, upto: nat)
    requires from <= upto <= |env|
  {
    limit.Some? && Passes(env, from, upto) && begun + TimeIn(env, from, upto) >= limit.value
  }

  /** The time in a scope of which `passed` has gone by: it stands still at the limit. */
  function Clock(begun: int, limit: Option<int>, passed: nat): int {
    if limit.None? then begun + passed else Min(begun + passed, Max(begun, limit.value))
  }

  lemma {:induction false} TimeJoin(env: seq<Env>, a: nat, b: nat, c: nat)
    requires a <= b <= c <= |env|
    ensures TimeIn(env, a, c) == TimeIn(env, a, b) + TimeIn(env, b, c)
    ensures Passes(env, a, c) <==> Passes(env, a, b) || Passes(env, b, c)
    ensures TimeIn(env, a, b) > 0 ==> Passes(env, a, b)
    decreases b - a
  {
    if a < b { TimeJoin(env, a + 1, b, c); }
  }

  /** A scope looked at in two stretches, its timer silent in the first. */
  lemma {:induction false} RingsJoin(begun: int, limit: Option<int>, env: seq<Env>, a: nat, b: nat, c: nat)
    requires a <= b <= c <= |env|
    ensures var mid := Clock(begun, limit, TimeIn(env, a, b));
      && Clock(begun, limit, TimeIn(env, a, c)) == Clock(mid, limit, TimeIn(env, b, c))
      && (!Rings(begun, limit, env, a, b) ==>
            (Rings(begun, limit, env, a, c) <==> Rings(mid, limit, env, b, c)))
  {
    TimeJoin(env, a, b, c);
    TimeJoin(env, b, c, c);
  }

  /** What a stretch does whatever is waiting: what the schedule delivers is
      received, all of it and nothing else, and the drop is set by a drop alone. */
  predicate Along(s: State, t: State, env: seq<Env>, from: nat, upto: nat) {
    && from <= upto <= |env|
    && t.arrivals == s.arrivals + ReceivedIn(env, from, upto)
    && s.consumed <= t.consumed && s.watched == t.watched
    && (t.dropped <==> s.dropped || (s.watched && OccursIn(LinkDrop, env, from, upto)))
    && (s.dropped ==> t.beforeDrop == s.beforeDrop)
  }

  lemma {:induction false} AlongJoin(s: State, t: State, u: State, env: seq<Env>, a: nat, b: nat, c: nat)
    requires Along(s, t, env, a, b) && Along(t, u, env, b, c)
    ensures Along(s, u, env, a, c)
  {
    StretchJoin(env, a, b, c, LinkDrop);
    assert s.arrivals + ReceivedIn(env, a, b) + ReceivedIn(env, b, c) == s.arrivals + ReceivedIn(env, a, c);
  }

  lemma {:induction false} StepAlong(s: State, e: Event, env: seq<Env>, from: nat)
    requires Inv(s) && from < |env| && env[from] == Step(e) && Outside(e)
    ensures Along(s, Next(s, e), env, from, from + 1)
  {
    NextIsFifo(s, e);
    DropBy(s, e);
    assert ReceivedIn(env, from + 1, from + 1) == [];
  }

  lemma {:induction false} DropBy(s: State, e: Event)
    ensures var t := Next(s, e);
      && t.watched == s.watched && (t.dropped <==> s.dropped || (s.watched && e == LinkDrop))
      && (s.dropped ==> t.beforeDrop == s.beforeDrop)
  {}

  /** A step of the task's own code or of a timer leaves receptions and drop alone. */
  lemma {:induction false} OwnStepAlong(s: State, e: Event, env: seq<Env>, from: nat)
    requires Inv(s) && from <= |env| && (e == StartWait || e == Clear || e == Cancel)
    ensures Along(s, Next(s, e), env, from, from)
  {
    NextIsFifo(s, e);
    DropBy(s, e);
  }

  // ── What a wait keeps ────────────────────────────────────────────────────

  /** A wait started in `s`, halfway or just ended. */
  predicate Waiting(s: State, t: State) {
    && Inv(t)
    && if t.waiter != NotWaiting then t.consumed == s.consumed else
       match t.outcome
       case Got(f) => t.consumed == s.consumed + [f]
       case SawDrop => t.consumed == s.consumed && t.dropped && t.beforeDrop <= |t.consumed|
       case WasCancelled => t.consumed == s.consumed
       case NoWait => false
  }

  lemma {:induction false} WaitingStep(s: State, t: State, e: Event)
    requires Waiting(s, t) && t.waiter != NotWaiting && Outside(e)
    ensures Waiting(s, Next(t, e))
  {
    NextInv(t, e);
    StepTakes(t, e);
  }

  /** A step of a running wait takes no frame, unless it ends the wait with one. */
  lemma {:induction false} StepTakes(t: State, e: Event)
    requires Inv(t) && t.waiter != NotWaiting && Outside(e)
    ensures var u := Next(t, e);
      if u.waiter != NotWaiting then u.consumed == t.consumed else
      match u.outcome
      case Got(f) => u.consumed == t.consumed + [f]
      case SawDrop => u.consumed == t.consumed && u.dropped && u.beforeDrop <= |u.consumed|
      case WasCancelled => u.consumed == t.consumed
      case NoWait => false
  {
    if Next(t, e).waiter == NotWaiting {
      EndTakes(t, e);
    } else {
      NextIsFifo(t, e);
    }
  }

  lemma {:induction false} EndTakes(t: State, e: Event)
    requires Inv(t) && t.waiter != NotWaiting && Outside(e) && Next(t, e).waiter == NotWaiting
    ensures var u := Next(t, e);
      match u.outcome
      case Got(f) => u.consumed == t.consumed + [f]
      case SawDrop => u.consumed == t.consumed && u.dropped && u.beforeDrop <= |u.consumed|
      case WasCancelled => u.consumed == t.consumed
      case NoWait => false
  {
    assert e == Turn && t.ready[0] == WakeWaiter;
    var u := Next(t, e);
    if u.outcome == SawDrop {
      DropIsLate(t, e);
      DropBy(t, e);
    }
  }

  lemma {:induction false} OnlyCancelRaises(s: State, e: Event)
    requires Inv(s) && s.waiter != NotWaiting && e != Cancel && !Raises(s)
    ensures var t := Next(s, e);
      if t.waiter == NotWaiting then t.outcome != WasCancelled else !Raises(t)
  {}

  /** The wait has ended as cancelled, or is going to. */
  predicate Condemned(s: State) {
    if s.waiter == NotWaiting then s.outcome == WasCancelled else Raises(s)
  }

  /** A cancellation condemns a running wait wherever it is, and nothing pardons it. */
  lemma {:induction false} CancelCondemns(s: State, e: Event)
    requires s.waiter != NotWaiting && (e == Cancel || Raises(s))
    ensures Condemned(Next(s, e))
  {}

  /** What a wait begun in `s` at `begun` keeps while it reads the stretch from `first`
      on: it is condemned exactly when its timer has fired or somebody cancelled it. */
  predicate Kept(s: State, begun: int, w: Running, limit: Option<int>, env: seq<Env>, first: nat, from: nat) {
    && first <= from <= |env| && Waiting(s, w.at.state) && Along(s, w.at.state, env, first, from)
    && Timed(begun, w, limit, env, first, from)
    && (Condemned(w.at.state) <==> w.fired || w.outside)
  }

  predicate Timed(begun: int, w: Running, limit: Option<int>, env: seq<Env>, first: nat, from: nat) {
    && first <= from <= |env|
    && w.at.now == Clock(begun, limit, TimeIn(env, first, from))
    && (w.fired <==> Rings(begun, limit, env, first, from))
    && (w.outside <==> OccursIn(Cancel, env, first, from))
  }

  lemma {:induction false} BeginKeeps(m: Moment, limit: Option<int>, env: seq<Env>, from: nat)
    requires Inv(m.state) && m.state.waiter == NotWaiting && from <= |env|
    ensures Kept(m.state, m.now, Begin(m), limit, env, from, from)
  {
    NextInv(m.state, StartWait);
    NextIsFifo(m.state, StartWait);
    OwnStepAlong(m.state, StartWait, env, from);
    BeginDrop(m.state);
  }

  lemma {:induction false} BeginDrop(s: State)
    requires Inv(s) && s.waiter == NotWaiting
    ensures var t := Next(s, StartWait);
      && !Condemned(t) && (t.waiter != NotWaiting ==> t.consumed == s.consumed)
      && (t.waiter == NotWaiting ==> t.outcome.Got? || t.outcome == SawDrop)
      && (t.waiter == NotWaiting && t.outcome.Got? ==> t.consumed == s.consumed + [t.outcome.frame])
      && (t.waiter == NotWaiting && t.outcome == SawDrop ==>
            t.consumed == s.consumed && t.dropped && t.beforeDrop <= |t.consumed|)
  {
    if Next(s, StartWait).waiter == NotWaiting && Next(s, StartWait).outcome == SawDrop { DropIsLate(s, StartWait); }
  }

  lemma {:induction false} AdvanceKeeps(
      s: State, begun: int, w: Running, limit: Option<int>, env: seq<Env>, first: nat, from: nat)
    requires Kept(s, begun, w, limit, env, first, from) && w.at.state.waiter != NotWaiting && from < |env|
    ensures Kept(s, begun, Advance(w, limit, env[from]), limit, env, first, from + 1)
  {
    hide Waiting, Along, Timed, Condemned, Next;
    AdvanceTimed(begun, w, limit, env, first, from);
    match env[from]
    case Step(e) => if Outside(e) { StepCarries(s, w.at.state, env, first, from); }
                    else { QuietCarries(s, w.at.state, env, first, from); }
    case Elapse(_) => QuietCarries(s, w.at.state, env, first, from);
  }

  lemma {:induction false} AdvanceTimed(
      begun: int, w: Running, limit: Option<int>, env: seq<Env>, first: nat, from: nat)
    requires Timed(begun, w, limit, env, first, from) && from < |env|
    ensures Timed(begun, Advance(w, limit, env[from]), limit, env, first, from + 1)
  {
    hide Next;
    StretchJoin(env, first, from, from + 1, Cancel);
    TimeJoin(env, first, from, from + 1);
    assert TimeIn(env, from + 1, from + 1) == 0 && !Passes(env, from + 1, from + 1);
    assert !OccursIn(Cancel, env, from + 1, from + 1);
  }

  /** A step of the loop. */
  lemma {:induction false} StepCarries(s: State, t: State, env: seq<Env>, first: nat, from: nat)
    requires first <= from < |env| && Waiting(s, t) && Along(s, t, env, first, from) && t.waiter != NotWaiting
    requires env[from].Step? && Outside(env[from].event)
    ensures var e := env[from].event; var u := Next(t, e);
      && Waiting(s, u) && Along(s, u, env, first, from + 1)
      && (Condemned(u) <==> Condemned(t) || e == Cancel)
  {
    hide Inv, Next, Along, Waiting;
    var e := env[from].event;
    WaitingStep(s, t, e);
    WaitingInv(s, t);
    StepAlong(t, e, env, from);
    AlongJoin(s, t, Next(t, e), env, first, from, from + 1);
    if e == Cancel || Raises(t) { CancelCondemns(t, e); } else { OnlyCancelRaises(t, e); }
  }

  lemma {:induction false} WaitingInv(s: State, t: State)
    requires Waiting(s, t)
    ensures Inv(t)
  {}

  /** An entry that is no step of the loop, with the wait left as it is or its timer firing. */
  lemma {:induction false} QuietCarries(s: State, t: State, env: seq<Env>, first: nat, from: nat)
    requires first <= from < |env| && Waiting(s, t) && Along(s, t, env, first, from) && t.waiter != NotWaiting
    requires env[from].Elapse? || !Outside(env[from].event)
    ensures var u := Next(t, Cancel);
      && Along(s, t, env, first, from + 1)
      && Waiting(s, u) && Along(s, u, env, first, from + 1) && Condemned(u)
  {
    hide Inv, Next, Along, Waiting;
    QuietEntry(t, env, from);
    AlongJoin(s, t, t, env, first, from, from + 1);
    WaitingStep(s, t, Cancel);
    WaitingInv(s, t);
    OwnStepAlong(t, Cancel, env, from + 1);
    AlongJoin(s, t, Next(t, Cancel), env, first, from + 1, from + 1);
    CancelCondemns(t, Cancel);
  }

  /** An entry that is no step of the loop changes nothing in the machine. */
  lemma {:induction false} QuietEntry(s: State, env: seq<Env>, from: nat)
    requires from < |env| && (env[from].Elapse? || !Outside(env[from].event))
    ensures Along(s, s, env, from, from + 1)
  {
    assert ReceivedIn(env, from + 1, from + 1) == [];
  }

  lemma {:induction false} WaitKeeps(
      s: State, begun: int, w: Running, limit: Option<int>, env: seq<Env>, first: nat, from: nat)
    requires Kept(s, begun, w, limit, env, first, from) && from <= |env|
    ensures var r := Wait(w, limit, env, from); Kept(s, begun, r.0, limit, env, first, r.1)
    decreases |env| - from
  {
    hide Kept, Advance;
    if from < |env| && w.at.state.waiter != NotWaiting {
      AdvanceKeeps(s, begun, w, limit, env, first, from);
      WaitKeeps(s, begun, Advance(w, limit, env[from]), limit, env, first, from + 1);
    }
  }

  /** What `_next` did, read off how it ended: how much it took, that whatever else
      has arrived is unread in order, what each ending had for a cause, and that a
      cause brings the ending about: a wait is stopped, or is about to be, exactly
      when its timer has fired or it was cancelled. */
  predicate Explained(m: Moment, e: Ended<WaitEnd>, limit: Option<int>, env: seq<Env>, from: nat) {
    && Inv(e.at.state) && Along(m.state, e.at.state, env, from, e.upto)
    && e.at.state.arrivals == e.at.state.consumed + Unread(e.at.state)
    && e.at.now == Clock(m.now, limit, TimeIn(env, from, e.upto))
    && (e.r == Suspended <==> e.at.state.waiter != NotWaiting)
    && (e.r.Delivered? <==> e.at.state.consumed != m.state.consumed)
    && (e.r.Stopped? || (e.r == Suspended && Raises(e.at.state)) <==>
          Rings(m.now, limit, env, from, e.upto) || OccursIn(Cancel, env, from, e.upto))
    && match e.r
       case Delivered(f) => e.at.state.consumed == m.state.consumed + [f]
       case Dropped => e.at.state.dropped && e.at.state.beforeDrop <= |e.at.state.consumed|
       case Stopped(expired) => expired <==> !OccursIn(Cancel, env, from, e.upto)
       case Suspended => e.upto == |env|
  }

  lemma {:induction false} WaitExplained(m: Moment, limit: Option<int>, env: seq<Env>, from: nat)
    requires Inv(m.state) && m.state.waiter == NotWaiting && from <= |env|
    ensures Explained(m, WaitFrom(m, limit, env, from), limit, env, from)
  {
    hide Along, Rings, Clock;
    BeginKeeps(m, limit, env, from);
    WaitKeeps(m.state, m.now, Begin(m), limit, env, from, from);
  }

  /** No wait outlasts its deadline or a cancellation. */
  lemma {:induction false} DeadlineStopsTheWait(m: Moment, limit: int, env: seq<Env>, from: nat)
    requires Inv(m.state) && m.state.waiter == NotWaiting && from <= |env| && m.now < limit
    ensures var e := WaitFrom(m, Some(limit), env, from);
      e.at.now >= limit || OccursIn(Cancel, env, from, e.upto) <==>
      e.r.Stopped? || (e.r == Suspended && Raises(e.at.state))
  {
    hide Inv, Along, WaitFrom;
    WaitExplained(m, Some(limit), env, from);
    var e := WaitFrom(m, Some(limit), env, from);
    TimeJoin(env, from, e.upto, e.upto);
  }

  /** A queued frame is delivered at once. */
  lemma {:induction false} QueuedIsNext(m: Moment, limit: Option<int>, env: seq<Env>, from: nat)
    requires m.state.waiter == NotWaiting && m.state.queue != [] && from <= |env|
    ensures var e := WaitFrom(m, limit, env, from);
      && e.r == Delivered(m.state.queue[0]) && e.upto == from && e.at.now == m.now
      && e.at.state.queue == m.state.queue[1..] && e.at.state.arrivals == m.state.arrivals
  {}

  /** With nothing queued, a drop that is already set is reported at once. */
  lemma {:induction false} DropIsNext(m: Moment, limit: Option<int>, env: seq<Env>, from: nat)
    requires m.state.waiter == NotWaiting && m.state.queue == [] && m.state.watched && m.state.dropped && from <= |env|
    ensures var e := WaitFrom(m, limit, env, from);
      && e.r == Dropped && e.upto == from && e.at.now == m.now
      && e.at.state.queue == [] && e.at.state.consumed == m.state.consumed
  {}

  // ── How long a wait lasts ────────────────────────────────────────────────

  /** The schedule goes on: a wait that was still running goes on from where it was. */
  lemma {:induction false} WaitGoesOn(w: Running, limit: Option<int>, before: seq<Env>, after: seq<Env>, from: nat)
    requires from <= |before|
    ensures var r := Wait(w, limit, before, from);
      Wait(w, limit, before + after, from) ==
      (if r.0.at.state.waiter == NotWaiting then r else Wait(r.0, limit, before + after, |before|))
    decreases |before| - from
  {
    hide Advance;
    if from < |before| && w.at.state.waiter != NotWaiting {
      assert (before + after)[from] == before[from];
      WaitGoesOn(Advance(w, limit, before[from]), limit, before, after, from + 1);
    }
  }

  lemma {:induction false} DueWait(w: Running, limit: Option<int>, n: nat, env: seq<Env>, from: nat)
    requires Inv(w.at.state) && w.at.state.waiter != NotWaiting && Due(w.at.state, n) && from <= |env|
    ensures Wait(w, limit, env, from).0.at.state.ticks <= w.at.state.ticks + n
    decreases |env| - from
  {
    hide Inv, Due, Next;
    if from < |env| {
      var s, t := w.at.state, Advance(w, limit, env[from]).at.state;
      if t.waiter == NotWaiting {
        assert t == Next(s, Cancel) || t == Next(s, env[from].event);
        if t == Next(s, Cancel) { CancelTicks(s); } else { EndTicks(s, env[from].event); }
      } else if t == s {
        DueWait(Advance(w, limit, env[from]), limit, n, env, from + 1);
      } else {
        DueStep(s, n, if env[from].Elapse? then Cancel else env[from].event);
        DueWait(Advance(w, limit, env[from]), limit, s.ticks + n - t.ticks, env, from + 1);
      }
    }
  }

  lemma {:induction false} CancelTicks(s: State)
    ensures Next(s, Cancel).ticks == s.ticks
  {}

  /** The step that ends a wait is no iteration boundary. */
  lemma {:induction false} EndTicks(s: State, e: Event)
    requires s.waiter != NotWaiting && Next(s, e).waiter == NotWaiting
    ensures Next(s, e).ticks == s.ticks
  {}

  /** Something has come for the wait to end on: a frame, the drop, its deadline or a cancellation. */
  predicate Called(m: Moment, e: Ended<WaitEnd>, limit: Option<int>, env: seq<Env>, from: nat)
    requires from <= e.upto <= |env|
  {
    HasNews(e.at.state) || Rings(m.now, limit, env, from, e.upto) || OccursIn(Cancel, env, from, e.upto)
  }

  /** Once the wait has been called, it lasts three iterations of the loop at most,
      whatever the schedule goes on with. */
  lemma {:induction false} CalledWaitEndsSoon(
      m: Moment, limit: Option<int>, before: seq<Env>, after: seq<Env>, from: nat)
    requires Inv(m.state) && m.state.waiter == NotWaiting && from <= |before|
    requires var e := WaitFrom(m, limit, before, from); e.r == Suspended && Called(m, e, limit, before, from)
    ensures WaitFrom(m, limit, before + after, from).at.state.ticks
         <= WaitFrom(m, limit, before, from).at.state.ticks + 3
  {
    hide Inv, Along, Due, Begin, Wait, HasNews, Rings, OccursIn;
    var w := Wait(Begin(m), limit, before, from).0;
    WaitExplained(m, limit, before, from);
    WaitGoesOn(Begin(m), limit, before, after, from);
    if Raises(w.at.state) { CalledIsNews(w.at.state); }
    NoLostWakeup(w.at.state);
    DueWait(w, limit, 3, before + after, |before|);
  }

  lemma {:induction false} CalledIsNews(s: State)
    requires Inv(s) && s.waiter != NotWaiting && Raises(s)
    ensures HasNews(s)
  {}

  function Steps(es: seq<Event>): seq<Env> {
    seq(|es|, i requires 0 <= i < |es| => Step(es[i]))
  }

  /** And it does end: the loop only has to keep turning. */
  lemma {:induction false} CalledWaitEnds(m: Moment, limit: Option<int>, before: seq<Env>, from: nat) returns (k: nat)
    requires Inv(m.state) && m.state.waiter == NotWaiting && from <= |before|
    requires var e := WaitFrom(m, limit, before, from); e.r == Suspended && Called(m, e, limit, before, from)
    ensures WaitFrom(m, limit, before + Steps(Turns(k)), from).r != Suspended
    ensures var e := WaitFrom(m, limit, before, from);
      Rings(m.now, limit, before, from, e.upto) || OccursIn(Cancel, before, from, e.upto) ==>
      WaitFrom(m, limit, before + Steps(Turns(k)), from).r.Stopped?
  {
    hide Inv, Along, Due, Begin, Wait, HasNews, Rings, OccursIn, Turns, Next;
    var w := Wait(Begin(m), limit, before, from).0;
    WaitExplained(m, limit, before, from);
    if Raises(w.at.state) { CalledIsNews(w.at.state); }
    NoLostWakeup(w.at.state);
    k := DueEndsTheWait(w.at.state, 3);
    TurnsAt(k);
    WaitGoesOn(Begin(m), limit, before, Steps(Turns(k)), from);
    WaitTurns(w, limit, before, k, k);
  }

  lemma {:induction false} TurnsAt(k: nat)
    ensures |Turns(k)| == k && forall i | 0 <= i < k :: Turns(k)[i] == Turn
  {
    if k > 0 { TurnsAt(k - 1); }
  }

  /** Along turns a wait does what the machine does, until it ends. */
  lemma {:induction false} WaitTurns(w: Running, limit: Option<int>, before: seq<Env>, k: nat, left: nat)
    requires left <= k == |Turns(k)| && Run(w.at.state, Turns(left)).waiter == NotWaiting
    ensures var r := Wait(w, limit, before + Steps(Turns(k)), |before| + k - left).0;
      r.at.state.waiter == NotWaiting && (Condemned(w.at.state) ==> Condemned(r.at.state))
    decreases left
  {
    hide Next, Condemned;
    var t := Next(w.at.state, Turn);
    if w.at.state.waiter != NotWaiting {
      assert left > 0;
      TurnsAt(k);
      RunTurns(w.at.state, left);
      if Condemned(w.at.state) { RunningCondemned(w.at.state); }
      WaitTurns(w.(at := w.at.(state := t)), limit, before, k, left - 1);
    }
  }

  lemma {:induction false} RunningCondemned(s: State)
    requires s.waiter != NotWaiting && Condemned(s)
    ensures Condemned(Next(s, Turn))
  {
    CancelCondemns(s, Turn);
  }

  // ── A wait is a run of the machine ───────────────────────────────────────

  /** The steps of the loop in a stretch of the schedule. */
  function StepsIn(env: seq<Env>, from: nat, upto: nat): seq<Event>
    requires from <= upto <= |env|
    decreases upto - from
  {
    if from == upto then [] else
      (if env[from].Step? && Outside(env[from].event) then [env[from].event] else []) + StepsIn(env, from + 1, upto)
  }

  /** The steps of the stretch, with the timer's cancellation put in once or not at all. */
  ghost predicate WithOneTimer(steps: seq<Event>, env: seq<Env>, from: nat, upto: nat, fired: bool)
    requires from <= upto <= |env|
  {
    if fired
    then exists i: nat ::
      from <= i <= upto && steps == StepsIn(env, from, i) + [Cancel] + StepsIn(env, i, upto)
    else steps == StepsIn(env, from, upto)
  }

  lemma {:induction false} StepFirst(
      steps: seq<Event>, env: seq<Env>, from: nat, upto: nat, fired: bool)
    requires from < upto <= |env| && WithOneTimer(steps, env, from + 1, upto, fired)
    ensures var head := StepsIn(env, from, from + 1); WithOneTimer(head + steps, env, from, upto, fired)
  {
    if fired {
      var i: nat :| from + 1 <= i <= upto && steps == StepsIn(env, from + 1, i) + [Cancel] + StepsIn(env, i, upto);
      StepsFirst(env, from, i);
      Regroup(StepsIn(env, from, from + 1), StepsIn(env, from + 1, i), [Cancel], StepsIn(env, i, upto));
    } else {
      StepsFirst(env, from, upto);
    }
  }

  lemma {:induction false} StepsFirst(env: seq<Env>, from: nat, upto: nat)
    requires from < upto <= |env|
    ensures StepsIn(env, from, upto) == StepsIn(env, from, from + 1) + StepsIn(env, from + 1, upto)
  {
    assert StepsIn(env, from + 1, from + 1) == [];
  }

  lemma {:induction false} Regroup(a: seq<Event>, b: seq<Event>, c: seq<Event>, d: seq<Event>)
    ensures a + (b + c + d) == (a + b) + c + d
  {}

  /** The timer fires in this entry. */
  lemma {:induction false} TimerFirst(steps: seq<Event>, env: seq<Env>, from: nat, upto: nat)
    requires from < upto <= |env| && env[from].Elapse? && WithOneTimer(steps, env, from + 1, upto, false)
    ensures StepsIn(env, from, from + 1) == [] && WithOneTimer([Cancel] + steps, env, from, upto, true)
  {
    StepsFirst(env, from, upto);
    assert StepsIn(env, from + 1, from + 1) == [];
    assert [Cancel] + steps == StepsIn(env, from, from) + [Cancel] + StepsIn(env, from, upto);
  }

  lemma {:induction false} RunJoin(s: State, a: seq<Event>, b: seq<Event>)
    ensures Run(s, a + b) == Run(Run(s, a), b)
    decreases |a|
  {
    hide Next;
    if a == [] {
      assert a + b == b;
    } else {
      assert (a + b)[1..] == a[1..] + b;
      RunJoin(Next(s, a[0]), a[1..], b);
    }
  }

  /** Whatever the machine guarantees of its runs holds of every timed wait. */
  lemma {:induction false} WaitIsARun(w: Running, limit: Option<int>, env: seq<Env>, from: nat)
    returns (steps: seq<Event>)
    requires from <= |env|
    ensures var r := Wait(w, limit, env, from);
      && r.0.at.state == Run(w.at.state, steps)
      && (w.fired ==> r.0.fired)
      && WithOneTimer(steps, env, from, r.1, r.0.fired && !w.fired)
    decreases |env| - from
  {
    hide Next;
    if from == |env| || w.at.state.waiter == NotWaiting {
      steps := [];
    } else {
      var next, upto := Advance(w, limit, env[from]), Wait(w, limit, env, from).1;
      var rest := WaitIsARun(next, limit, env, from + 1);
      var head, timer := StepsIn(env, from, from + 1), if next.fired && !w.fired then [Cancel] else [];
      assert next.at.state == Run(w.at.state, head + timer) by { OneEntry(w, limit, env, from); }
      steps := head + timer + rest;
      RunJoin(w.at.state, head + timer, rest);
      if timer == [] {
        assert steps == head + rest;
        StepFirst(rest, env, from, upto, Wait(w, limit, env, from).0.fired && !w.fired);
      } else {
        TimerFirst(rest, env, from, upto);
        assert steps == [Cancel] + rest;
      }
    }
  }

  lemma {:induction false} OneEntry(w: Running, limit: Option<int>, env: seq<Env>, from: nat)
    requires from < |env|
    ensures var next := Advance(w, limit, env[from]);
      var timer := if next.fired && !w.fired then [Cancel] else [];
      next.at.state == Run(w.at.state, StepsIn(env, from, from + 1) + timer)
  {
    hide Next;
    assert StepsIn(env, from + 1, from + 1) == [];
    match env[from]
    case Step(e) => if Outside(e) { assert [e][1..] == []; }
    case Elapse(_) => assert [Cancel][1..] == [];
  }
}
