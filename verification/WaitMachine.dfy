/** The event loop around one `Notifications` object: the frame queue, the drop
    event, and the tasks one wait races against each other.

    A wait creates a `Queue.get` task and an `Event.wait` task and parks its own
    task on a future that whichever finishes first resolves. Each hop of that
    chain is a callback in the loop's FIFO ready queue, so arrivals, the drop
    and a cancellation can land between any two hops. `Next` is one atomic step
    of that system; `Run` is any schedule of steps.

    A cancelled task is not tracked any further: its callback is relabelled
    where it stands in the ready queue. `HandOn` is a cancelled getter that had
    already been woken (it passes the wake-up on if frames are queued), `Spent`
    is every callback with no effect on this object. `Tick` stands for the
    boundary between two iterations of the loop: everything in front of it runs
    in this iteration, everything appended behind it in the next. */
module WaitMachine {
  import opened Ble

  datatype Getter = NoGetter | GetReady(started: bool) | GetParked | GetDone(frame: Frame)
  datatype Dropper = NoDropper | DropReady | DropParked | DropDone
  datatype Waiter = NotWaiting | Parked | Resolved | Interrupted
  datatype Callback = RunGet | RunDrop | TellGet | TellDrop | WakeWaiter | HandOn | Spent | Tick
  datatype Outcome = NoWait | Got(frame: Frame) | SawDrop | WasCancelled

  /** `arrivals`, `consumed`, `beforeDrop` and `ticks` are history: every frame
      received, every frame a wait or `clear` took, how many had arrived when
      the drop event was set, and how many loop iterations have passed. */
  datatype State = State(
    queue: seq<Frame>,
    dropped: bool,
    watched: bool,
    ready: seq<Callback>,
    getter: Getter,
    dropper: Dropper,
    waiter: Waiter,
    mustCancel: bool,
    outcome: Outcome,
    arrivals: seq<Frame>,
    consumed: seq<Frame>,
    beforeDrop: nat,
    ticks: nat)

  datatype Event =
    | Arrive(frame: Frame)   // the notify callback puts a frame
    | LinkDrop               // the disconnect callback sets the event
    | Cancel                 // a timeout or an outer cancellation of the waiting task
    | Foreign                // someone else schedules a callback
    | Turn                   // the loop runs the callback at the head of the ready queue
    | StartWait              // the task calls `_next`
    | Clear                  // the task calls `clear`

  function Initial(watched: bool): State {
    State([], false, watched, [Tick], NoGetter, NoDropper, NotWaiting, false, NoWait, [], [], 0, 0)
  }

  // ── One step ─────────────────────────────────────────────────────────────

  function Next(s: State, e: Event): State {
    match e
    case Arrive(f) => OnArrive(s, f)
    case LinkDrop => OnDrop(s)
    case Cancel => OnCancel(s)
    case Foreign => s.(ready := s.ready + [Spent])
    case Turn => if s.ready == [] then s else OnTurn(s.(ready := s.ready[1..]), s.ready[0])
    case StartWait => if s.waiter == NotWaiting then OnStart(s) else s
    case Clear =>
      if s.waiter == NotWaiting then s.(queue := [], consumed := s.consumed + s.queue) else s
  }

  /** `put_nowait`: the frame is queued and the parked getter, if any, woken. */
  function OnArrive(s: State, f: Frame): State {
    var t := s.(queue := s.queue + [f], arrivals := s.arrivals + [f]);
    if t.getter == GetParked then t.(getter := GetReady(true), ready := t.ready + [RunGet])
    else if !t.watched && t.waiter == Parked then t.(waiter := Resolved, ready := t.ready + [WakeWaiter])
    else t
  }

  function OnDrop(s: State): State {
    if s.dropped || !s.watched then s else
      var t := s.(dropped := true, beforeDrop := |s.arrivals|);
      if t.dropper == DropParked then t.(dropper := DropReady, ready := t.ready + [RunDrop]) else t
  }

  /** `Task.cancel`: cancels the future the task is parked on, or, when that one
      is already resolved, marks the task so that its next step raises. */
  function OnCancel(s: State): State {
    match s.waiter
    case NotWaiting => s
    case Parked => s.(waiter := Interrupted, ready := s.ready + [WakeWaiter])
    case _ => s.(mustCancel := true)
  }

  /** `_next` up to its first suspension. */
  function OnStart(s: State): State {
    if s.queue != [] then
      s.(queue := s.queue[1..], consumed := s.consumed + [s.queue[0]], outcome := Got(s.queue[0]))
    else if !s.watched then
      s.(waiter := Parked, outcome := NoWait)
    else if s.dropped then
      s.(outcome := SawDrop)
    else
      s.(waiter := Parked, getter := GetReady(false), dropper := DropReady, outcome := NoWait,
         ready := s.ready + [RunGet, RunDrop])
  }

  /** Runs callback `c`, already removed from the ready queue. */
  function OnTurn(s: State, c: Callback): State {
    match c
    case RunGet =>
      if s.queue == [] then s.(getter := GetParked)
      else s.(getter := GetDone(s.queue[0]), queue := s.queue[1..], ready := s.ready + [TellGet])
    case RunDrop =>
      if s.dropped then s.(dropper := DropDone, ready := s.ready + [TellDrop])
      else s.(dropper := DropParked)
    case TellGet => Tell(s)
    case TellDrop => Tell(s)
    case WakeWaiter => Resume(s)
    case HandOn =>
      if s.queue != [] && s.getter == GetParked
      then s.(getter := GetReady(true), ready := s.ready + [RunGet]) else s
    case Spent => s
    case Tick => s.(ready := s.ready + [Tick], ticks := s.ticks + 1)
  }

  /** The done callback `asyncio.wait` put on both tasks. */
  function Tell(s: State): State {
    if s.waiter == Parked then s.(waiter := Resolved, ready := s.ready + [WakeWaiter]) else s
  }

  predicate Raises(s: State) { s.mustCancel || s.waiter == Interrupted }

  /** The waiting task resumes: the rest of `_next`, to its return or raise. */
  function Resume(s: State): State {
    if s.watched then ResumeWatched(s)
    else if Raises(s) then EndWait(s, WasCancelled)
    else if s.queue == [] then s.(waiter := Parked)
    else EndWait(s.(queue := s.queue[1..], consumed := s.consumed + [s.queue[0]]), Got(s.queue[0]))
  }

  function ResumeWatched(s: State): State {
    if Raises(s) then
      // A frame the get task already took goes back to the front.
      var q := if s.getter.GetDone? then [s.getter.frame] + s.queue else s.queue;
      EndWait(s.(queue := q), WasCancelled)
    else if s.getter.GetDone? then
      EndWait(s.(consumed := s.consumed + [s.getter.frame]), Got(s.getter.frame))
    else
      EndWait(s, SawDrop)
  }

  /** The `finally` of `_next`: both tasks are cancelled. */
  function EndWait(s: State, o: Outcome): State {
    s.(waiter := NotWaiting, mustCancel := false, outcome := o, getter := NoGetter, dropper := NoDropper,
       ready := Retire(s.ready, s.getter == GetReady(true)) + Leftover(s.getter, s.dropper))
  }

  /** Relabels the callbacks of the two cancelled tasks. */
  function Retire(r: seq<Callback>, woken: bool): seq<Callback> {
    seq(|r|, i requires 0 <= i < |r| => Retired(r[i], woken))
  }

  function Retired(c: Callback, woken: bool): Callback {
    if c == RunGet && woken then HandOn
    else if c == Tick || c == HandOn then c
    else Spent
  }

  /** Cancelling a task that is parked on a future schedules one last wake-up. */
  function Leftover(g: Getter, d: Dropper): seq<Callback> {
    (if d == DropParked then [Spent] else []) + (if g == GetParked then [Spent] else [])
  }

  function Run(s: State, es: seq<Event>): State
    decreases |es|
  {
    if es == [] then s else Run(Next(s, es[0]), es[1..])
  }

  // ── What every reachable state satisfies ─────────────────────────────────

  /** Frames received and not consumed: the one a finished get task holds, then the queue. */
  function Unread(s: State): seq<Frame> {
    (if s.getter.GetDone? then [s.getter.frame] else []) + s.queue
  }

  function Count(r: seq<Callback>, c: Callback): nat {
    if r == [] then 0 else (if r[0] == c then 1 else 0) + Count(r[1..], c)
  }

  function Bit(b: bool): nat { if b then 1 else 0 }

  /** No `c` stands behind a `d`. */
  predicate Ahead(r: seq<Callback>, c: Callback, d: Callback) {
    r == [] || (if r[0] == d then Count(r[1..], c) == 0 else Ahead(r[1..], c, d))
  }

  /** No frame is lost, duplicated or reordered. */
  predicate Conserved(s: State) {
    s.arrivals == s.consumed + Unread(s)
  }

  /** Each live task has its callback scheduled exactly when its state says so. */
  predicate Scheduled(s: State) {
    && Count(s.ready, RunGet) == Bit(s.getter.GetReady?)
    && Count(s.ready, RunDrop) == Bit(s.dropper == DropReady)
    && Count(s.ready, WakeWaiter) == Bit(s.waiter == Resolved || s.waiter == Interrupted)
    && Count(s.ready, Tick) == 1
    && Count(s.ready, TellGet) <= Bit(s.getter.GetDone?)
    && Count(s.ready, TellDrop) <= Bit(s.dropper == DropDone)
    && (s.waiter == Parked ==> Count(s.ready, TellGet) == Bit(s.getter.GetDone?))
    && (s.waiter == Parked ==> Count(s.ready, TellDrop) == Bit(s.dropper == DropDone))
    && (s.waiter == Resolved && s.watched ==> s.getter.GetDone? || s.dropper == DropDone)
    && (s.waiter == NotWaiting || !s.watched ==>
          s.getter == NoGetter && s.dropper == NoDropper)
    && (s.waiter != NotWaiting && s.watched ==>
          s.getter != NoGetter && s.dropper != NoDropper)
    && (s.waiter == NotWaiting || s.waiter == Parked ==> !s.mustCancel)
  }

  /** A parked task has nothing to wait for yet. */
  predicate ParkedForCause(s: State) {
    && (s.getter == GetParked ==> s.queue == [])
    && (s.getter == GetReady(true) ==> s.queue != [])
    && (s.dropper == DropParked ==> !s.dropped)
    && (s.dropper == DropDone ==> s.dropped)
    && (!s.watched && s.waiter == Parked ==> s.queue == [])
    && (!s.watched && s.waiter == Resolved ==> s.queue != [])
  }

  /** A frame that came before the drop is still unread. */
  predicate PendingBeforeDrop(s: State) {
    s.dropped && |s.consumed| < s.beforeDrop
  }

  /** The getter that will take such a frame runs before the drop can end the wait. */
  predicate GetterLeads(s: State) {
    && (s.getter == GetReady(false) ==> s.dropper == DropReady && Ahead(s.ready, RunGet, RunDrop))
    && (s.getter.GetReady? && (!s.dropped || PendingBeforeDrop(s)) ==>
          s.waiter != Resolved && Ahead(s.ready, RunGet, TellDrop))
  }

  predicate Inv(s: State) {
    && Conserved(s) && Scheduled(s) && ParkedForCause(s) && GetterLeads(s)
    && (s.dropped ==> s.beforeDrop <= |s.arrivals|)
  }

  // ── Facts about the ready queue ──────────────────────────────────────────

  lemma {:induction false} CountJoin(a: seq<Callback>, b: seq<Callback>, c: Callback)
    ensures Count(a + b, c) == Count(a, c) + Count(b, c)
  {
    if a == [] {
      assert a + b == b;
    } else {
      assert (a + b)[1..] == a[1..] + b;
      CountJoin(a[1..], b, c);
    }
  }

  lemma {:induction false} AheadPush(r: seq<Callback>, x: Callback, c: Callback, d: Callback)
    requires x != c || Count(r, d) == 0
    requires c != d
    ensures Ahead(r + [x], c, d) == Ahead(r, c, d)
  {
    if r == [] {
    } else {
      assert (r + [x])[1..] == r[1..] + [x];
      CountJoin(r[1..], [x], c);
      AheadPush(r[1..], x, c, d);
    }
  }

  lemma {:induction false} AheadWithout(r: seq<Callback>, c: Callback, d: Callback)
    requires Count(r, c) == 0 || Count(r, d) == 0
    ensures Ahead(r, c, d)
  {
    if r != [] { AheadWithout(r[1..], c, d); }
  }

  /** Appending `x` to the ready queue of a valid state. */
  lemma {:induction false} Push(r: seq<Callback>, x: Callback)
    ensures forall c :: Count(r + [x], c) == Count(r, c) + Bit(c == x)
    ensures x != RunGet ==> Ahead(r + [x], RunGet, RunDrop) == Ahead(r, RunGet, RunDrop)
    ensures x != RunGet || Count(r, TellDrop) == 0 ==>
              Ahead(r + [x], RunGet, TellDrop) == Ahead(r, RunGet, TellDrop)
  {
    forall c ensures Count(r + [x], c) == Count(r, c) + Bit(c == x) {
      CountJoin(r, [x], c);
    }
    if x != RunGet { AheadPush(r, x, RunGet, RunDrop); }
    if x != RunGet || Count(r, TellDrop) == 0 { AheadPush(r, x, RunGet, TellDrop); }
  }

  lemma {:induction false} RetireCounts(r: seq<Callback>, woken: bool, c: Callback)
    requires c != HandOn && c != Spent
    ensures Count(Retire(r, woken), c) == if c == Tick then Count(r, Tick) else 0
  {
    if r != [] {
      assert Retire(r, woken)[1..] == Retire(r[1..], woken);
      RetireCounts(r[1..], woken, c);
    }
  }

  /** Once a wait has ended none of its callbacks is live. */
  lemma {:induction false} RetiredReady(r: seq<Callback>, woken: bool, rest: seq<Callback>)
    requires rest in {[], [Spent], [Spent, Spent]}
    ensures var t := Retire(r, woken) + rest;
      && Count(t, RunGet) == 0 && Count(t, RunDrop) == 0 && Count(t, WakeWaiter) == 0
      && Count(t, TellGet) == 0 && Count(t, TellDrop) == 0 && Count(t, Tick) == Count(r, Tick)
  {
    forall c: Callback | c in {RunGet, RunDrop, WakeWaiter, TellGet, TellDrop, Tick}
      ensures Count(Retire(r, woken) + rest, c) == if c == Tick then Count(r, Tick) else 0
    {
      RetireCounts(r, woken, c);
      CountJoin(Retire(r, woken), rest, c);
      assert [Spent, Spent][1..] == [Spent];
    }
  }

  lemma {:induction false} InitialInv(watched: bool)
    ensures Inv(Initial(watched))
  {}

  lemma {:induction false} NextInv(s: State, e: Event)
    requires Inv(s)
    ensures Inv(Next(s, e))
  {
    match e
    case Arrive(f) => ArriveInv(s, f);
    case LinkDrop => DropInv(s);
    case Cancel => CancelInv(s);
    case Foreign => AppendSpent(s);
    case StartWait => if s.waiter == NotWaiting { StartInv(s); }
    case Clear =>
    case Turn => if s.ready != [] { TurnInv(s); }
  }

  lemma {:induction false} ArriveInv(s: State, f: Frame)
    requires Inv(s)
    ensures Inv(OnArrive(s, f))
  {
    Push(s.ready, RunGet);
    Push(s.ready, WakeWaiter);
    if s.getter == GetParked { AheadWithout(s.ready, RunGet, TellDrop); }
  }

  lemma {:induction false} DropInv(s: State)
    requires Inv(s)
    ensures Inv(OnDrop(s))
  {
    Push(s.ready, RunDrop);
  }

  lemma {:induction false} CancelInv(s: State)
    requires Inv(s)
    ensures Inv(OnCancel(s))
  {
    Push(s.ready, WakeWaiter);
  }

  lemma {:induction false} AppendSpent(s: State)
    requires Inv(s)
    ensures Inv(s.(ready := s.ready + [Spent]))
  {
    Push(s.ready, Spent);
  }

  lemma {:induction false} StartInv(s: State)
    requires Inv(s) && s.waiter == NotWaiting
    ensures Inv(OnStart(s))
  {
    StartReady(s.ready);
  }

  /** The ready queue of a wait that begins with no callback of an earlier one live. */
  lemma {:induction false} StartReady(r: seq<Callback>)
    ensures var t := r + [RunGet, RunDrop];
      && (forall c :: Count(t, c) == Count(r, c) + Bit(c == RunGet) + Bit(c == RunDrop))
      && (Count(r, RunDrop) == 0 && Count(r, RunGet) == 0 ==> Ahead(t, RunGet, RunDrop))
      && (Count(r, TellDrop) == 0 ==> Ahead(t, RunGet, TellDrop))
  {
    var t := r + [RunGet, RunDrop];
    assert r + [RunGet] + [RunDrop] == t;
    forall c ensures Count(t, c) == Count(r, c) + Bit(c == RunGet) + Bit(c == RunDrop) {
      CountJoin(r, [RunGet], c);
      CountJoin(r + [RunGet], [RunDrop], c);
    }
    if Count(r, TellDrop) == 0 { AheadWithout(t, RunGet, TellDrop); }
    if Count(r, RunDrop) == 0 && Count(r, RunGet) == 0 {
      CountJoin(r, [RunGet], RunDrop);
      AheadWithout(r + [RunGet], RunGet, RunDrop);
      AheadPush(r + [RunGet], RunDrop, RunGet, RunDrop);
    }
  }

  lemma {:induction false} TurnInv(s: State)
    requires Inv(s) && s.ready != []
    ensures Inv(Next(s, Turn))
  {
    var c, t := s.ready[0], s.(ready := s.ready[1..]);
    match c
    case RunGet => RunGetInv(s);
    case RunDrop => RunDropInv(s);
    case TellGet => TellInv(s);
    case TellDrop => TellInv(s);
    case WakeWaiter => ResumeInv(s);
    case HandOn => SpentInv(s);
    case Spent => SpentInv(s);
    case Tick => TickInv(s);
  }

  lemma {:induction false} RunGetInv(s: State)
    requires Inv(s) && s.ready != [] && s.ready[0] == RunGet
    ensures Inv(Next(s, Turn))
  {
    if s.queue == [] { ParkGetInv(s); } else { TakeFrameInv(s); }
  }

  lemma {:induction false} ParkGetInv(s: State)
    requires Inv(s) && s.ready != [] && s.ready[0] == RunGet && s.queue == []
    ensures Inv(s.(ready := s.ready[1..], getter := GetParked))
  {}

  lemma {:induction false} TakeFrameInv(s: State)
    requires Inv(s) && s.ready != [] && s.ready[0] == RunGet && s.queue != []
    ensures Inv(s.(ready := s.ready[1..] + [TellGet], getter := GetDone(s.queue[0]), queue := s.queue[1..]))
  {
    Push(s.ready[1..], TellGet);
    assert [s.queue[0]] + s.queue[1..] == s.queue;
  }

  lemma {:induction false} RunDropInv(s: State)
    requires Inv(s) && s.ready != [] && s.ready[0] == RunDrop
    ensures Inv(Next(s, Turn))
  {
    Push(s.ready[1..], TellDrop);
    AheadWithout(s.ready[1..], RunGet, TellDrop);
  }

  lemma {:induction false} TellInv(s: State)
    requires Inv(s) && s.ready != [] && (s.ready[0] == TellGet || s.ready[0] == TellDrop)
    ensures Inv(Next(s, Turn))
  {
    Push(s.ready[1..], WakeWaiter);
  }

  lemma {:induction false} ResumeInv(s: State)
    requires Inv(s) && s.ready != [] && s.ready[0] == WakeWaiter
    ensures Inv(Next(s, Turn))
  {
    if s.watched { ResumeWatchedInv(s); } else { ResumePlainInv(s); }
  }

  lemma {:induction false} ResumeWatchedInv(s: State)
    requires Inv(s) && s.ready != [] && s.ready[0] == WakeWaiter && s.watched
    ensures Inv(Next(s, Turn))
  {
    var t := s.(ready := s.ready[1..]);
    assert Count(t.ready, Tick) == 1;
    ResumedWatchedInv(t);
  }

  lemma {:induction false} ResumedWatchedInv(s: State)
    requires Conserved(s) && (s.dropped ==> s.beforeDrop <= |s.arrivals|) && Count(s.ready, Tick) == 1
    ensures Inv(ResumeWatched(s))
  {
    if Raises(s) {
      EndWaitInv(s.(queue := if s.getter.GetDone? then [s.getter.frame] + s.queue else s.queue), WasCancelled);
    } else if s.getter.GetDone? {
      EndWaitInv(s.(consumed := s.consumed + [s.getter.frame]), Got(s.getter.frame));
    } else {
      EndWaitInv(s, SawDrop);
    }
  }

  lemma {:induction false} ResumePlainInv(s: State)
    requires Inv(s) && s.ready != [] && s.ready[0] == WakeWaiter && !s.watched
    ensures Inv(Next(s, Turn))
  {
    var t := s.(ready := s.ready[1..]);
    assert Count(t.ready, Tick) == 1;
    assert s.arrivals == s.consumed + s.queue && (Raises(s) || s.queue != []);
    ResumedPlainInv(t);
  }

  lemma {:induction false} ResumedPlainInv(s: State)
    requires !s.watched && s.arrivals == s.consumed + s.queue && (s.dropped ==> s.beforeDrop <= |s.arrivals|)
    requires Count(s.ready, Tick) == 1 && (Raises(s) || s.queue != [])
    ensures Inv(Resume(s))
  {
    if Raises(s) {
      EndWaitInv(s, WasCancelled);
    } else {
      assert s.queue == [s.queue[0]] + s.queue[1..];
      EndWaitInv(s.(queue := s.queue[1..], consumed := s.consumed + [s.queue[0]]), Got(s.queue[0]));
    }
  }

  lemma {:induction false} EndWaitInv(s: State, o: Outcome)
    requires s.arrivals == s.consumed + s.queue && (s.dropped ==> s.beforeDrop <= |s.arrivals|)
    requires Count(s.ready, Tick) == 1
    ensures Inv(EndWait(s, o))
  {
    var rest := Leftover(s.getter, s.dropper);
    assert rest == [] || rest == [Spent] || rest == [Spent, Spent];
    RetiredReady(s.ready, s.getter == GetReady(true), rest);
  }

  lemma {:induction false} SpentInv(s: State)
    requires Inv(s) && s.ready != [] && (s.ready[0] == HandOn || s.ready[0] == Spent)
    ensures Inv(Next(s, Turn))
  {
    Push(s.ready[1..], RunGet);
  }

  lemma {:induction false} TickInv(s: State)
    requires Inv(s) && s.ready != [] && s.ready[0] == Tick
    ensures Inv(Next(s, Turn))
  {
    Push(s.ready[1..], Tick);
  }

  lemma {:induction false} RunInv(s: State, es: seq<Event>)
    requires Inv(s)
    ensures Inv(Run(s, es))
    decreases |es|
  {
    hide Inv, Next;
    if es != [] {
      NextInv(s, es[0]);
      RunInv(Next(s, es[0]), es[1..]);
    }
  }

  // ── The object is a FIFO queue ───────────────────────────────────────────

  /** What a schedule received, in order. */
  function Received(es: seq<Event>): seq<Frame> {
    if es == [] then [] else
      (if es[0].Arrive? then [es[0].frame] else []) + Received(es[1..])
  }

  /** The plain queue one step refines: an arrival enqueues, an ended wait that
      returned a frame dequeues the head, `clear` empties, nothing else moves. */
  predicate FifoStep(s: State, e: Event, t: State) {
    if e.Arrive? then
      Unread(t) == Unread(s) + [e.frame] && t.consumed == s.consumed
    else if e == Clear && s.waiter == NotWaiting then
      Unread(t) == [] && t.consumed == s.consumed + Unread(s)
    else if t.consumed != s.consumed then
      && Unread(s) != []
      && t.waiter == NotWaiting && t.outcome == Got(Unread(s)[0])
      && Unread(t) == Unread(s)[1..] && t.consumed == s.consumed + [Unread(s)[0]]
    else
      Unread(t) == Unread(s)
  }

  lemma {:induction false} NextIsFifo(s: State, e: Event)
    requires Inv(s)
    ensures FifoStep(s, e, Next(s, e))
    ensures Next(s, e).arrivals == s.arrivals + (if e.Arrive? then [e.frame] else [])
  {
    match e
    case Arrive(f) =>
    case LinkDrop =>
    case Cancel =>
    case Foreign =>
    case StartWait => if s.waiter == NotWaiting { StartIsFifo(s); }
    case Clear => if s.waiter == NotWaiting { ClearIsFifo(s); }
    case Turn => if s.ready != [] { TurnIsFifo(s); }
  }

  lemma {:induction false} StartIsFifo(s: State)
    requires s.waiter == NotWaiting && s.getter == NoGetter
    ensures FifoStep(s, StartWait, OnStart(s)) && OnStart(s).arrivals == s.arrivals
  {}

  lemma {:induction false} ClearIsFifo(s: State)
    requires s.waiter == NotWaiting && s.getter == NoGetter
    ensures FifoStep(s, Clear, Next(s, Clear)) && Next(s, Clear).arrivals == s.arrivals
  {}

  lemma {:induction false} TurnIsFifo(s: State)
    requires Inv(s) && s.ready != []
    ensures FifoStep(s, Turn, Next(s, Turn)) && Next(s, Turn).arrivals == s.arrivals
  {
    var c, t := s.ready[0], s.(ready := s.ready[1..]);
    if c == WakeWaiter {
      assert s.watched || s.getter == NoGetter;
      ResumeIsFifo(t);
    } else if c == RunGet {
      assert s.getter.GetReady?;
      GetIsFifo(t);
    }
  }

  lemma {:induction false} ResumeIsFifo(s: State)
    requires s.watched || s.getter == NoGetter
    ensures FifoStep(s, Turn, Resume(s)) && Resume(s).arrivals == s.arrivals
  {
    assert s.getter.GetDone? ==> Unread(s)[1..] == s.queue;
    assert !s.getter.GetDone? ==> Unread(s) == s.queue;
  }

  lemma {:induction false} GetIsFifo(s: State)
    requires s.getter.GetReady?
    ensures FifoStep(s, Turn, OnTurn(s, RunGet)) && OnTurn(s, RunGet).arrivals == s.arrivals
  {
    if s.queue != [] { assert [s.queue[0]] + s.queue[1..] == s.queue; }
  }

  /** Over any schedule: the frames received are the frames consumed, then the
      unread ones, in order and without loss or duplication. */
  lemma {:induction false} FramesConserved(watched: bool, es: seq<Event>)
    ensures var s := Run(Initial(watched), es);
      s.arrivals == Received(es) == s.consumed + Unread(s)
  {
    InitialInv(watched);
    RunInv(Initial(watched), es);
    ArrivalsReceived(Initial(watched), es);
  }

  lemma {:induction false} ArrivalsReceived(s: State, es: seq<Event>)
    requires Inv(s)
    ensures Run(s, es).arrivals == s.arrivals + Received(es)
    ensures s.consumed <= Run(s, es).consumed
    decreases |es|
  {
    hide Inv, Next;
    if es == [] {
      assert s.arrivals + [] == s.arrivals;
    } else {
      var t, first := Next(s, es[0]), if es[0].Arrive? then [es[0].frame] else [];
      NextInv(s, es[0]);
      StepGrows(s, es[0]);
      ArrivalsReceived(t, es[1..]);
      assert (s.arrivals + first) + Received(es[1..]) == s.arrivals + (first + Received(es[1..]));
      PrefixChain(s.consumed, t.consumed, Run(t, es[1..]).consumed);
    }
  }

  lemma {:induction false} PrefixChain(a: seq<Frame>, b: seq<Frame>, c: seq<Frame>)
    requires a <= b <= c
    ensures a <= c
  {}

  lemma {:induction false} StepGrows(s: State, e: Event)
    requires Inv(s)
    ensures Next(s, e).arrivals == s.arrivals + (if e.Arrive? then [e.frame] else [])
    ensures s.consumed <= Next(s, e).consumed
  {
    hide Inv, Next;
    NextIsFifo(s, e);
  }

  /** The get task has taken a frame and the wait is about to raise instead of returning it. */
  predicate InTheWindow(s: State) {
    s.watched && s.getter.GetDone? && s.ready != [] && s.ready[0] == WakeWaiter && Raises(s)
  }

  /** There the frame goes back to the head of the queue, whatever came in behind it. */
  lemma {:induction false} WindowRepaired(s: State)
    requires InTheWindow(s)
    ensures var t := Next(s, Turn);
      && t.waiter == NotWaiting && t.outcome == WasCancelled
      && t.queue == [s.getter.frame] + s.queue && t.consumed == s.consumed
  {}

  /** And otherwise the wait returns it, whatever else has finished by then. */
  lemma {:induction false} TakenIsReturned(s: State)
    requires s.watched && s.getter.GetDone? && s.ready != [] && s.ready[0] == WakeWaiter && !Raises(s)
    ensures var t := Next(s, Turn);
      && t.waiter == NotWaiting && t.outcome == Got(s.getter.frame)
      && t.queue == s.queue && t.consumed == s.consumed + [s.getter.frame]
  {}

  lemma {:induction false} RunThen(s: State, es: seq<Event>, e: Event)
    ensures Run(s, es + [e]) == Next(Run(s, es), e)
    ensures Received(es + [e]) == Received(es) + Received([e])
    decreases |es|
  {
    if es == [] {
      assert es + [e] == [e];
    } else {
      assert (es + [e])[1..] == es[1..] + [e];
      RunThen(Next(s, es[0]), es[1..], e);
    }
  }

  /** A frame arrives for a wait that has begun, and the get task takes it. */
  lemma {:induction false} FrameTaken(frame: Frame) returns (es: seq<Event>)
    ensures var s := Run(Initial(true), es);
      && s.watched && s.waiter == Parked && s.getter == GetDone(frame) && !s.dropped
      && s.ready == [RunDrop, Tick, TellGet] && Received(es) == [frame]
  {
    es := [StartWait];
    assert Run(Initial(true), es) == Next(Initial(true), StartWait) && Received(es) == [];
    RunThen(Initial(true), es, Turn);
    es := es + [Turn];
    assert Run(Initial(true), es).ready == [RunGet, RunDrop, Tick];
    RunThen(Initial(true), es, Arrive(frame));
    es := es + [Arrive(frame)];
    RunThen(Initial(true), es, Turn);
    es := es + [Turn];
  }

  /** The timeout comes in before the waiter has been told. */
  lemma {:induction false} TimeoutComesIn(frame: Frame) returns (es: seq<Event>)
    ensures var s := Run(Initial(true), es);
      && s.watched && s.waiter == Interrupted && s.getter == GetDone(frame)
      && s.ready == [Tick, TellGet, WakeWaiter] && Received(es) == [frame]
  {
    hide Run;
    es := FrameTaken(frame);
    RunThen(Initial(true), es, Cancel);
    es := es + [Cancel];
    assert Run(Initial(true), es).ready == [RunDrop, Tick, TellGet, WakeWaiter];
    RunThen(Initial(true), es, Turn);
    es := es + [Turn];
  }

  /** And a wait does get there. */
  lemma {:induction false} WindowReached(frame: Frame) returns (es: seq<Event>)
    ensures InTheWindow(Run(Initial(true), es)) && Received(es) == [frame]
  {
    hide Run;
    es := TimeoutComesIn(frame);
    RunThen(Initial(true), es, Turn);
    es := es + [Turn];
    RunThen(Initial(true), es, Turn);
    es := es + [Turn];
  }

  // ── Delivery beats the drop ──────────────────────────────────────────────

  /** This step ends (or refuses) a wait with `SessionDropped`. */
  predicate ReportsDrop(s: State, e: Event) {
    || (e == StartWait && s.waiter == NotWaiting && Next(s, e).waiter == NotWaiting && Next(s, e).outcome == SawDrop)
    || (e == Turn && s.waiter != NotWaiting && Next(s, e).waiter == NotWaiting && Next(s, e).outcome == SawDrop)
  }

  /** Whatever the schedule before it, a wait that raises `SessionDropped` does
      so after the drop, with every frame that arrived before it consumed. */
  lemma {:induction false} DeliveryBeatsDrop(watched: bool, es: seq<Event>, e: Event)
    requires ReportsDrop(Run(Initial(watched), es), e)
    ensures var s := Run(Initial(watched), es);
      && s.dropped && s.beforeDrop <= |s.consumed| && s.consumed <= s.arrivals
      && s.arrivals[..s.beforeDrop] == s.consumed[..s.beforeDrop]
  {
    InitialInv(watched);
    RunInv(Initial(watched), es);
    DropIsLate(Run(Initial(watched), es), e);
  }

  lemma {:induction false} DropIsLate(s: State, e: Event)
    requires Inv(s) && ReportsDrop(s, e)
    ensures s.dropped && s.beforeDrop <= |s.consumed|
  {
    if e == Turn {
      assert s.ready[0] == WakeWaiter;
      assert s.getter == GetParked || s.getter.GetReady?;
    }
  }

  // ── No lost wake-up ──────────────────────────────────────────────────────

  /** `c` stands in front of the iteration boundary. */
  predicate Soon(r: seq<Callback>, c: Callback) {
    r != [] && (r[0] == c || (r[0] != Tick && Soon(r[1..], c)))
  }

  /** How many more hops follow callback `c` until the wait has ended, counting its own. */
  function Hops(c: Callback): nat {
    match c
    case RunGet => 3
    case RunDrop => 3
    case TellGet => 2
    case TellDrop => 2
    case WakeWaiter => 1
    case _ => 0
  }

  /** Running `c` from here leads to the end of the wait. */
  predicate Leads(s: State, c: Callback) {
    match c
    case RunGet => s.waiter == Parked && s.queue != []
    case RunDrop => s.waiter == Parked && s.dropped
    case TellGet => s.waiter == Parked
    case TellDrop => s.waiter == Parked
    case WakeWaiter => true
    case _ => false
  }

  /** `c` is scheduled, ends the wait, and does so within `n` iteration boundaries. */
  predicate Chain(s: State, c: Callback, n: nat) {
    && Count(s.ready, c) > 0
    && Leads(s, c)
    && Hops(c) <= n + Bit(Soon(s.ready, c))
  }

  predicate Due(s: State, n: nat) {
    exists c: Callback :: Chain(s, c, n)
  }

  /** There is something for the wait to end on. */
  predicate HasNews(s: State) {
    s.waiter != NotWaiting && (Unread(s) != [] || (s.watched && s.dropped) || s.waiter != Parked)
  }

  lemma {:induction false} NoLostWakeup(s: State)
    requires Inv(s) && HasNews(s)
    ensures Due(s, 3)
  {
    if s.waiter != Parked {
      assert Chain(s, WakeWaiter, 3);
    } else if s.getter.GetDone? {
      assert Chain(s, TellGet, 3);
    } else if s.queue != [] {
      assert Chain(s, RunGet, 3);
    } else if s.dropper == DropDone {
      assert Chain(s, TellDrop, 3);
    } else {
      assert Chain(s, RunDrop, 3);
    }
  }

  lemma {:induction false} SoonPush(r: seq<Callback>, x: Callback, c: Callback)
    requires c != Tick
    ensures Count(r, Tick) > 0 ==> Soon(r + [x], c) == Soon(r, c)
    ensures Count(r, Tick) == 0 && Count(r, c) > 0 ==> Soon(r + [x], c)
  {
    if r != [] {
      assert (r + [x])[1..] == r[1..] + [x];
      SoonPush(r[1..], x, c);
    }
  }

  /** `r` is `q`, with `x` appended at most. */
  predicate Grown(q: seq<Callback>, r: seq<Callback>, x: Callback) {
    r == q || r == q + [x]
  }

  /** A chain survives every step that does not end the wait, and each
      iteration boundary brings it one closer. */
  lemma {:induction false} ChainStep(s: State, c: Callback, n: nat, e: Event)
    requires Inv(s) && s.waiter != NotWaiting && Chain(s, c, n) && Next(s, e).waiter != NotWaiting
    ensures var t := Next(s, e); t.ticks <= s.ticks + n && Due(t, s.ticks + n - t.ticks)
  {
    hide Conserved, GetterLeads, ParkedForCause;
    var t := Next(s, e);
    match e
    case Arrive(_) =>
      ChainKept(s, c, n, t, s.ready, if s.getter == GetParked then RunGet else WakeWaiter);
    case LinkDrop => ChainKept(s, c, n, t, s.ready, RunDrop);
    case Cancel => ChainKept(s, c, n, t, s.ready, WakeWaiter);
    case Foreign => ChainKept(s, c, n, t, s.ready, Spent);
    case StartWait => assert Chain(t, c, n);
    case Clear => assert Chain(t, c, n);
    case Turn =>
      if s.ready[0] == Tick {
        ChainTick(s, c, n);
      } else {
        ChainTurn(s, c, n);
      }
  }

  /** At the boundary the chain's callback comes into the next iteration. */
  lemma {:induction false} ChainTick(s: State, c: Callback, n: nat)
    requires Inv(s) && s.waiter != NotWaiting && Chain(s, c, n) && s.ready[0] == Tick
    ensures n > 0 && Next(s, Turn).ticks == s.ticks + 1 && Due(Next(s, Turn), n - 1)
  {
    hide Conserved, GetterLeads, ParkedForCause;
    Push(s.ready[1..], Tick);
    SoonPush(s.ready[1..], Tick, c);
    assert Chain(Next(s, Turn), c, n - 1);
  }

  /** A step that leaves `c` where it stands in `q` and appends `x` at most. */
  lemma {:induction false} ChainKept(s: State, c: Callback, n: nat, t: State, q: seq<Callback>, x: Callback)
    requires Inv(s) && s.waiter != NotWaiting && Leads(s, c)
    requires Count(q, c) > 0 && Hops(c) <= n + Bit(Soon(q, c)) && Count(q, Tick) == 1
    requires Grown(q, t.ready, x) && x != Tick && (s.dropped ==> t.dropped)
    requires c == RunGet ==> |s.queue| <= |t.queue|
    requires t.waiter == s.waiter || (t.ready == q + [WakeWaiter] && s.waiter == Parked)
    ensures Due(t, n)
  {
    Push(q, x);
    SoonPush(q, x, c);
    if t.waiter == s.waiter {
      assert Chain(t, c, n);
    } else {
      Push(q, WakeWaiter);
      assert Chain(t, WakeWaiter, n);
    }
  }

  lemma {:induction false} ChainTurn(s: State, c: Callback, n: nat)
    requires Inv(s) && s.waiter != NotWaiting && Chain(s, c, n) && Next(s, Turn).waiter != NotWaiting
    requires s.ready[0] != Tick
    ensures Next(s, Turn).ticks == s.ticks && Due(Next(s, Turn), n)
  {
    hide Conserved, GetterLeads;
    var t, h, r := Next(s, Turn), s.ready[0], s.ready[1..];
    var x := match h case RunGet => TellGet case RunDrop => TellDrop case HandOn => RunGet case _ => WakeWaiter;
    if h == WakeWaiter {
      assert false;
    } else if c != h {
      ChainKept(s, c, n, t, r, x);
    } else {
      Push(r, x);
      assert Chain(t, x, n);
    }
  }

  /** The wait running in `s` has not ended anywhere along `es`. */
  predicate StaysWaiting(s: State, es: seq<Event>)
    decreases |es|
  {
    s.waiter != NotWaiting && (es != [] ==> StaysWaiting(Next(s, es[0]), es[1..]))
  }

  /** Once a wait has something to end on, it ends within three iterations of
      the loop, whatever else arrives, is scheduled or is cancelled meanwhile. */
  lemma {:induction false} WaitEndsInThreeIterations(s: State, es: seq<Event>)
    requires Inv(s) && HasNews(s) && StaysWaiting(s, es)
    ensures Run(s, es).ticks <= s.ticks + 3
  {
    NoLostWakeup(s);
    DueBoundsTicks(s, 3, es);
  }

  lemma {:induction false} DueBoundsTicks(s: State, n: nat, es: seq<Event>)
    requires Inv(s) && Due(s, n) && StaysWaiting(s, es)
    ensures Run(s, es).ticks <= s.ticks + n
    decreases |es|
  {
    hide Inv, Due, Next;
    if es != [] {
      DueStep(s, n, es[0]);
      var t := Next(s, es[0]);
      DueBoundsTicks(t, s.ticks + n - t.ticks, es[1..]);
    }
  }

  lemma {:induction false} DueStep(s: State, n: nat, e: Event)
    requires Inv(s) && s.waiter != NotWaiting && Due(s, n) && Next(s, e).waiter != NotWaiting
    ensures var t := Next(s, e); Inv(t) && t.ticks <= s.ticks + n && Due(t, s.ticks + n - t.ticks)
  {
    NextInv(s, e);
    var c: Callback :| Chain(s, c, n);
    ChainStep(s, c, n, e);
  }

  function Turns(k: nat): seq<Event> {
    if k == 0 then [] else [Turn] + Turns(k - 1)
  }

  function TickAt(r: seq<Callback>): nat {
    if r == [] || r[0] == Tick then 0 else 1 + TickAt(r[1..])
  }

  lemma {:induction false} TickAtPush(r: seq<Callback>, x: seq<Callback>)
    requires Count(r, Tick) > 0
    ensures TickAt(r + x) == TickAt(r)
  {
    if r[0] == Tick {
      assert (r + x)[0] == Tick;
    } else {
      assert (r + x)[1..] == r[1..] + x;
      TickAtPush(r[1..], x);
    }
  }

  lemma {:induction false} TickNearer(s: State)
    requires Inv(s) && s.ready[0] != WakeWaiter && Next(s, Turn).ticks == s.ticks
    ensures TickAt(Next(s, Turn).ready) < TickAt(s.ready)
  {
    var t, r := Next(s, Turn), s.ready[1..];
    assert s.ready[0] != Tick;
    assert r <= t.ready;
    assert t.ready == r + t.ready[|r|..];
    TickAtPush(r, t.ready[|r|..]);
  }

  lemma {:induction false} RunTurns(s: State, k: nat)
    requires k > 0
    ensures Run(s, Turns(k)) == Run(Next(s, Turn), Turns(k - 1))
  {
    assert Turns(k)[1..] == Turns(k - 1);
  }

  lemma {:induction false} DueEndsTheWait(s: State, n: nat) returns (k: nat)
    requires Inv(s) && Due(s, n)
    ensures Run(s, Turns(k)).waiter == NotWaiting
    decreases n, TickAt(s.ready)
  {
    hide Inv, Due, Next;
    k := 0;
    if s.waiter != NotWaiting {
      var t := Next(s, Turn);
      if t.waiter != NotWaiting {
        TurnNearer(s, n);
        k := DueEndsTheWait(t, s.ticks + n - t.ticks);
      }
      k := k + 1;
      RunTurns(s, k);
    }
  }

  lemma {:induction false} TurnNearer(s: State, n: nat)
    requires Inv(s) && s.waiter != NotWaiting && Due(s, n) && Next(s, Turn).waiter != NotWaiting
    ensures var t := Next(s, Turn);
      && Inv(t) && t.ticks <= s.ticks + n && Due(t, s.ticks + n - t.ticks)
      && (t.ticks > s.ticks || (t.ticks == s.ticks && TickAt(t.ready) < TickAt(s.ready)))
  {
    DueStep(s, n, Turn);
    TicksGrow(s);
    if Next(s, Turn).ticks == s.ticks {
      assert s.ready != [];
      TickNearer(s);
    }
  }

  lemma {:induction false} TicksGrow(s: State)
    ensures Next(s, Turn).ticks >= s.ticks
  {}

  /** And it does end: the loop only has to keep turning. */
  lemma {:induction false} TurningEndsTheWait(s: State)
    requires Inv(s) && HasNews(s)
    ensures exists k: nat :: Run(s, Turns(k)).waiter == NotWaiting
  {
    NoLostWakeup(s);
    var k := DueEndsTheWait(s, 3);
  }
}
