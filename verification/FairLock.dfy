/** Any number of jobs contending for the one lock `run_attempts` holds per attempt.

    The lock is `asyncio.Lock` step by step: a release only wakes the first
    waiter, which takes the lock when its task runs; a waiter can be cancelled
    before or after it was woken. A job asks for the lock once per attempt and
    is in none of these places while it decides on a retry, reports and pauses. */
module FairLock {
  /** A waiter's future: `Cancelled` before it was woken, `Revoked` after. */
  datatype Mark = Pending | Woken | Cancelled | Revoked

  datatype Waiter = Waiter(ticket: nat, mark: Mark)

  /** Every request gets a ticket, its index in `asked`. `granted` is the history
      of tickets that got the lock, `givenUp` of those whose job was cancelled.
      `attempting` are the jobs inside an attempt. */
  datatype State = State(
    locked: bool,
    waiters: seq<Waiter>,
    attempting: set<nat>,
    asked: seq<nat>,
    granted: seq<nat>,
    givenUp: set<nat>)

  datatype Event =
    | Ask(job: nat)       // the job reaches `async with lock`
    | Release(job: nat)   // its attempt ends
    | Cancel(job: nat)    // its task is cancelled while it waits
    | Resume(job: nat)    // its task runs after its future was resolved

  const INITIAL := State(false, [], {}, [], [], {})

  function WakeFirst(ws: seq<Waiter>): seq<Waiter> {
    if ws != [] && ws[0].mark == Pending then [ws[0].(mark := Woken)] + ws[1..] else ws
  }

  /** Where `job` stands among the waiters, or past the end. */
  function Find(asked: seq<nat>, ws: seq<Waiter>, job: nat): (r: nat)
    ensures r <= |ws|
    ensures r < |ws| ==> ws[r].ticket < |asked| && asked[ws[r].ticket] == job
    ensures forall i :: 0 <= i < r ==> ws[i].ticket < |asked| ==> asked[ws[i].ticket] != job
  {
    if ws == [] then 0
    else if ws[0].ticket < |asked| && asked[ws[0].ticket] == job then 0
    else 1 + Find(asked, ws[1..], job)
  }

  predicate Queued(s: State, job: nat) {
    Find(s.asked, s.waiters, job) < |s.waiters|
  }

  function Next(s: State, e: Event): State {
    match e
    case Ask(j) => if Queued(s, j) || j in s.attempting then s else OnAsk(s, j)
    case Release(j) =>
      if j in s.attempting
      then s.(attempting := s.attempting - {j}, locked := false, waiters := WakeFirst(s.waiters)) else s
    case Cancel(j) => if Queued(s, j) then OnCancel(s, Find(s.asked, s.waiters, j)) else s
    case Resume(j) => if Queued(s, j) then OnResume(s, Find(s.asked, s.waiters, j), j) else s
  }

  function OnAsk(s: State, j: nat): State {
    var ticket := |s.asked|;
    if !s.locked && (forall i :: 0 <= i < |s.waiters| ==> s.waiters[i].mark == Cancelled) then
      s.(locked := true, asked := s.asked + [j], granted := s.granted + [ticket], attempting := s.attempting + {j})
    else
      s.(asked := s.asked + [j], waiters := s.waiters + [Waiter(ticket, Pending)])
  }

  function OnCancel(s: State, i: nat): State
    requires i < |s.waiters|
  {
    var w := s.waiters[i];
    var mark := if w.mark == Pending then Mark.Cancelled else if w.mark == Woken then Revoked else w.mark;
    s.(waiters := s.waiters[i := w.(mark := mark)], givenUp := s.givenUp + {w.ticket})
  }

  function OnResume(s: State, i: nat, j: nat): State
    requires i < |s.waiters|
  {
    var w, rest := s.waiters[i], s.waiters[..i] + s.waiters[i + 1..];
    match w.mark
    case Pending => s
    case Woken =>
      s.(locked := true, waiters := rest, granted := s.granted + [w.ticket], attempting := s.attempting + {j})
    case _ => s.(waiters := if s.locked then rest else WakeFirst(rest))
  }

  function Run(s: State, es: seq<Event>): State
    decreases |es|
  {
    if es == [] then s else Run(Next(s, es[0]), es[1..])
  }

  // ── What every reachable state satisfies ─────────────────────────────────

  predicate Live(w: Waiter) { w.mark == Pending || w.mark == Woken }

  predicate Ordered(s: State) {
    && (forall i, j :: 0 <= i < j < |s.waiters| ==> s.waiters[i].ticket < s.waiters[j].ticket)
    && (forall i, j :: 0 <= i < j < |s.granted| ==> s.granted[i] < s.granted[j])
    && (forall i :: 0 <= i < |s.waiters| ==> s.waiters[i].ticket < |s.asked|)
    && (forall i :: 0 <= i < |s.granted| ==> s.granted[i] < |s.asked|)
    && (forall i, j :: 0 <= i < |s.granted| && 0 <= j < |s.waiters| && Live(s.waiters[j]) ==>
          s.granted[i] < s.waiters[j].ticket)
  }

  /** Only the first waiter is ever woken, and only while the lock is free; and
      while it is free and wanted, the first waiter is about to run. */
  predicate Handover(s: State) {
    && (forall i :: 0 <= i < |s.waiters| && (s.waiters[i].mark == Woken || s.waiters[i].mark == Revoked) ==>
          i == 0 && !s.locked)
    && (!s.locked && s.waiters != [] ==> s.waiters[0].mark != Pending)
  }

  /** The lock is held exactly while one job is inside an attempt: the one granted last. */
  predicate Exclusive(s: State) {
    && (s.locked <==> s.attempting != {})
    && (forall j <- s.attempting :: s.granted != [] && s.granted[|s.granted| - 1] < |s.asked|
          && s.asked[s.granted[|s.granted| - 1]] == j)
  }

  /** Each ticket still waiting, if not given up, is live, and no granted one was. */
  predicate Tracked(s: State) {
    && (forall i :: 0 <= i < |s.waiters| ==> (Live(s.waiters[i]) <==> s.waiters[i].ticket !in s.givenUp))
    && (forall i :: 0 <= i < |s.granted| ==> s.granted[i] !in s.givenUp)
    && (forall k :: 0 <= k < |s.asked| ==> k in s.granted || k in s.givenUp || Waits(s, k))
    && (forall k <- s.givenUp :: k < |s.asked|)
  }

  /** Ticket `k` is still in the queue. */
  predicate Waits(s: State, k: nat) {
    exists i :: 0 <= i < |s.waiters| && s.waiters[i].ticket == k
  }

  predicate Inv(s: State) {
    Ordered(s) && Handover(s) && Exclusive(s) && Tracked(s)
  }

  lemma {:induction false} NextInv(s: State, e: Event)
    requires Inv(s)
    ensures Inv(Next(s, e))
  {
    match e
    case Ask(j) => if !Queued(s, j) && j !in s.attempting { AskInv(s, j); }
    case Release(j) => ReleaseInv(s, j);
    case Cancel(j) => if Queued(s, j) { CancelInv(s, Find(s.asked, s.waiters, j)); }
    case Resume(j) => if Queued(s, j) { ResumeInv(s, Find(s.asked, s.waiters, j), j); }
  }

  /** Every ticket is still accounted for when the waiters that left did so for a reason. */
  lemma {:induction false} StillTracked(s: State, t: State)
    requires Inv(s) && s.asked <= t.asked && s.granted <= t.granted && s.givenUp <= t.givenUp
    requires forall i :: 0 <= i < |s.waiters| ==>
      Waits(t, s.waiters[i].ticket) || s.waiters[i].ticket in t.granted || s.waiters[i].ticket in t.givenUp
    requires forall k :: |s.asked| <= k < |t.asked| ==> Waits(t, k) || k in t.granted
    ensures forall k :: 0 <= k < |t.asked| ==> k in t.granted || k in t.givenUp || Waits(t, k)
  {
    forall k: nat | k < |t.asked| ensures k in t.granted || k in t.givenUp || Waits(t, k) {
      if k < |s.asked| {
        assert k in s.granted || k in s.givenUp || Waits(s, k);
      }
    }
  }

  lemma {:induction false} AskInv(s: State, j: nat)
    requires Inv(s) && j !in s.attempting
    ensures Inv(OnAsk(s, j))
  {
    var t := OnAsk(s, j);
    if t.locked && !s.locked { AskFreeInv(s, j); } else { AskQueuedInv(s, j); }
  }

  lemma {:induction false} AskFreeInv(s: State, j: nat)
    requires Inv(s) && !s.locked && OnAsk(s, j).locked
    ensures Inv(OnAsk(s, j))
  {
    var t := OnAsk(s, j);
    FreeTracked(s, t);
    assert Ordered(t);
    assert Handover(t);
    assert Exclusive(t);
  }

  lemma {:induction false} FreeTracked(s: State, t: State)
    requires Inv(s) && t.waiters == s.waiters && t.givenUp == s.givenUp && t.granted == s.granted + [|s.asked|]
    requires s.asked <= t.asked && |t.asked| == |s.asked| + 1
    ensures Tracked(t)
  {
    forall i | 0 <= i < |s.waiters| ensures Waits(t, s.waiters[i].ticket) {
      assert t.waiters[i].ticket == s.waiters[i].ticket;
    }
    assert t.granted[|s.granted|] == |s.asked|;
    StillTracked(s, t);
  }

  lemma {:induction false} AskQueuedInv(s: State, j: nat)
    requires Inv(s) && OnAsk(s, j).locked == s.locked
    ensures Inv(OnAsk(s, j))
  {
    var t := OnAsk(s, j);
    assert t.waiters == s.waiters + [Waiter(|s.asked|, Pending)];
    QueuedOrder(s, t);
    QueuedTracked(s, t);
    assert Handover(t);
    assert Exclusive(t);
  }

  lemma {:induction false} QueuedOrder(s: State, t: State)
    requires Inv(s) && t.waiters == s.waiters + [Waiter(|s.asked|, Pending)] && |t.asked| == |s.asked| + 1
    requires t.granted == s.granted
    ensures Ordered(t)
  {}

  lemma {:induction false} QueuedTracked(s: State, t: State)
    requires Inv(s) && t.waiters == s.waiters + [Waiter(|s.asked|, Pending)]
    requires s.asked <= t.asked && |t.asked| == |s.asked| + 1 && t.granted == s.granted && t.givenUp == s.givenUp
    ensures Tracked(t)
  {
    forall i | 0 <= i < |s.waiters| ensures Waits(t, s.waiters[i].ticket) {
      assert t.waiters[i].ticket == s.waiters[i].ticket;
    }
    assert t.waiters[|s.waiters|].ticket == |s.asked|;
    StillTracked(s, t);
  }

  /** The same tickets wait in the same order, none of them newly live. */
  predicate SameQueue(s: State, t: State) {
    && t.asked == s.asked && t.granted == s.granted && |t.waiters| == |s.waiters|
    && forall i :: 0 <= i < |s.waiters| ==>
         t.waiters[i].ticket == s.waiters[i].ticket && (Live(t.waiters[i]) ==> Live(s.waiters[i]))
  }

  lemma {:induction false} SameOrder(s: State, t: State)
    requires Inv(s) && SameQueue(s, t)
    ensures Ordered(t)
  {}

  lemma {:induction false} SameTracked(s: State, t: State)
    requires Inv(s) && SameQueue(s, t) && s.givenUp <= t.givenUp && forall k <- t.givenUp :: k < |t.asked|
    requires forall i :: 0 <= i < |t.waiters| ==> (Live(t.waiters[i]) <==> t.waiters[i].ticket !in t.givenUp)
    requires forall i :: 0 <= i < |t.granted| ==> t.granted[i] !in t.givenUp
    ensures Tracked(t)
  {
    forall i | 0 <= i < |s.waiters| ensures Waits(t, s.waiters[i].ticket) {
      assert t.waiters[i].ticket == s.waiters[i].ticket;
    }
    StillTracked(s, t);
  }

  lemma {:induction false} WakeKeeps(ws: seq<Waiter>)
    ensures |WakeFirst(ws)| == |ws|
    ensures forall i :: 0 <= i < |ws| ==>
      WakeFirst(ws)[i].ticket == ws[i].ticket && (Live(WakeFirst(ws)[i]) <==> Live(ws[i]))
      && (WakeFirst(ws)[i] == ws[i] || (i == 0 && WakeFirst(ws)[i].mark == Woken))
  {}

  lemma {:induction false} ReleaseInv(s: State, j: nat)
    requires Inv(s)
    ensures Inv(Next(s, Release(j)))
  {
    var t := Next(s, Release(j));
    if j in s.attempting {
      WakeKeeps(s.waiters);
      SameOrder(s, t);
      SameTracked(s, t);
      assert Handover(t);
      assert Exclusive(t);
    }
  }

  lemma {:induction false} CancelInv(s: State, i: nat)
    requires Inv(s) && i < |s.waiters|
    ensures Inv(OnCancel(s, i))
  {
    var t := OnCancel(s, i);
    SameOrder(s, t);
    CancelMarks(s, i);
    SameTracked(s, t);
    assert Handover(t);
    assert Exclusive(t);
  }

  lemma {:induction false} CancelMarks(s: State, i: nat)
    requires Inv(s) && i < |s.waiters|
    ensures var t := OnCancel(s, i);
      && (forall k :: 0 <= k < |t.waiters| ==> (Live(t.waiters[k]) <==> t.waiters[k].ticket !in t.givenUp))
      && (forall k :: 0 <= k < |t.granted| ==> t.granted[k] !in t.givenUp)
  {
    var t, ticket := OnCancel(s, i), s.waiters[i].ticket;
    forall k | 0 <= k < |s.granted| ensures s.granted[k] != ticket {
      assert Live(s.waiters[i]) || ticket in s.givenUp;
    }
    forall k | 0 <= k < |s.waiters| && k != i ensures s.waiters[k].ticket != ticket && t.waiters[k] == s.waiters[k] {}
  }

  lemma {:induction false} ResumeInv(s: State, i: nat, j: nat)
    requires Inv(s) && i < |s.waiters| && s.asked[s.waiters[i].ticket] == j
    ensures Inv(OnResume(s, i, j))
  {
    match s.waiters[i].mark
    case Pending =>
    case Woken => GrantInv(s, j);
    case _ => LeaveInv(s, i, j);
  }

  lemma {:induction false} GrantInv(s: State, j: nat)
    requires Inv(s) && s.waiters != [] && s.waiters[0].mark == Woken && s.asked[s.waiters[0].ticket] == j
    ensures Inv(OnResume(s, 0, j))
  {
    var t := OnResume(s, 0, j);
    assert t.waiters == s.waiters[1..];
    GrantOrder(s, t);
    GrantTracked(s, t);
    assert t.granted[|t.granted| - 1] == s.waiters[0].ticket;
    assert !s.locked && s.attempting == {};
  }

  lemma {:induction false} GrantTracked(s: State, t: State)
    requires Inv(s) && s.waiters != [] && s.waiters[0].mark == Woken
    requires t.waiters == s.waiters[1..] && t.granted == s.granted + [s.waiters[0].ticket]
    requires t.asked == s.asked && t.givenUp == s.givenUp
    ensures Tracked(t)
  {
    forall k | 0 < k < |s.waiters| ensures Waits(t, s.waiters[k].ticket) {
      assert t.waiters[k - 1].ticket == s.waiters[k].ticket;
    }
    assert t.granted[|s.granted|] == s.waiters[0].ticket;
    StillTracked(s, t);
  }

  lemma {:induction false} LeaveInv(s: State, i: nat, j: nat)
    requires Inv(s) && i < |s.waiters| && !Live(s.waiters[i])
    ensures Inv(OnResume(s, i, j))
  {
    var t := OnResume(s, i, j);
    LeaveShape(s, i, j);
    LeaveOrder(s, t, i);
    LeaveTracked(s, t, i);
    LeaveHandover(s, i, j);
    assert Exclusive(t);
  }

  /** `t` has the waiters of `s` but for number `i`, with the same tickets, as live as they were. */
  predicate Without(s: State, t: State, i: nat) {
    && t.granted == s.granted && t.asked == s.asked && t.givenUp == s.givenUp && |t.waiters| == |s.waiters| - 1
    && forall k :: 0 <= k < |t.waiters| ==>
         var v := s.waiters[if k < i then k else k + 1];
         t.waiters[k].ticket == v.ticket && (Live(t.waiters[k]) <==> Live(v))
  }

  lemma {:induction false} LeaveShape(s: State, i: nat, j: nat)
    requires i < |s.waiters| && !Live(s.waiters[i])
    ensures Without(s, OnResume(s, i, j), i)
  {
    var rest := s.waiters[..i] + s.waiters[i + 1..];
    WakeKeeps(rest);
    var t := OnResume(s, i, j);
    assert t.waiters == rest || t.waiters == WakeFirst(rest);
    forall k | 0 <= k < |rest|
      ensures var v := s.waiters[if k < i then k else k + 1];
        t.waiters[k].ticket == v.ticket && (Live(t.waiters[k]) <==> Live(v))
    {
      assert rest[k] == s.waiters[if k < i then k else k + 1];
    }
  }

  lemma {:induction false} LeaveTracked(s: State, t: State, i: nat)
    requires Inv(s) && i < |s.waiters| && !Live(s.waiters[i]) && Without(s, t, i)
    ensures Tracked(t)
  {
    forall k | 0 <= k < |s.waiters| && k != i ensures Waits(t, s.waiters[k].ticket) {
      assert t.waiters[if k < i then k else k - 1].ticket == s.waiters[k].ticket;
    }
    assert s.waiters[i].ticket in t.givenUp;
    StillTracked(s, t);
  }

  lemma {:induction false} LeaveHandover(s: State, i: nat, j: nat)
    requires Inv(s) && i < |s.waiters| && !Live(s.waiters[i])
    ensures Handover(OnResume(s, i, j))
  {
    hide Ordered, Exclusive, Tracked;
    var rest := s.waiters[..i] + s.waiters[i + 1..];
    assert forall k :: 0 <= k < |rest| ==> rest[k] == s.waiters[if k < i then k else k + 1];
  }

  lemma {:induction false} GrantOrder(s: State, t: State)
    requires Inv(s) && s.waiters != [] && s.waiters[0].mark == Woken
    requires t.waiters == s.waiters[1..] && t.granted == s.granted + [s.waiters[0].ticket] && t.asked == s.asked
    ensures Ordered(t)
  {}

  lemma {:induction false} LeaveOrder(s: State, t: State, i: nat)
    requires Inv(s) && i < |s.waiters| && Without(s, t, i)
    ensures Ordered(t)
  {}

  lemma {:induction false} RunInv(s: State, es: seq<Event>)
    requires Inv(s)
    ensures Inv(Run(s, es))
    decreases |es|
  {
    if es != [] {
      NextInv(s, es[0]);
      RunInv(Next(s, es[0]), es[1..]);
    }
  }

  /** Whatever the jobs do, two are never inside an attempt at once. */
  lemma {:induction false} MutualExclusion(es: seq<Event>)
    ensures var s := Run(INITIAL, es);
      (forall i, j :: i in s.attempting && j in s.attempting ==> i == j) && (s.locked <==> s.attempting != {})
  {
    RunInv(INITIAL, es);
  }

  /** A free lock that is wanted is never forgotten: the first waiter's task is scheduled. */
  lemma {:induction false} NeverForgotten(es: seq<Event>)
    ensures var s := Run(INITIAL, es);
      !s.locked && s.waiters != [] ==> s.waiters[0].mark != Pending
  {
    RunInv(INITIAL, es);
  }

  /** A free lock is had at once if all that wait for it were cancelled before they were
      woken, and else by the waiter it was handed to as soon as its task runs. */
  lemma {:induction false} HadAtOnce(s: State, job: nat)
    requires Inv(s) && job !in s.attempting
    ensures var t := Next(s, Ask(job)); !Queued(s, job) ==>
      (job in t.attempting <==> !s.locked && forall w <- s.waiters :: w.mark == Mark.Cancelled)
    ensures var i, t := Find(s.asked, s.waiters, job), Next(s, Resume(job)); i < |s.waiters| ==>
      && (job in t.attempting <==> s.waiters[i].mark == Woken)
      && (job in t.attempting ==> t.locked && t.granted == s.granted + [s.waiters[i].ticket])
  {}

  // ── Others go first ──────────────────────────────────────────────────────

  /** History only grows, and a job enters an attempt only by being granted the lock. */
  predicate Later(s: State, t: State) {
    && s.asked <= t.asked && s.granted <= t.granted && s.givenUp <= t.givenUp
    && (t.granted == s.granted ==> t.attempting <= s.attempting)
  }

  lemma {:induction false} NextLater(s: State, e: Event)
    ensures Later(s, Next(s, e))
  {}

  lemma {:induction false} RunLater(s: State, es: seq<Event>)
    ensures Later(s, Run(s, es))
    decreases |es|
  {
    if es != [] {
      NextLater(s, es[0]);
      RunLater(Next(s, es[0]), es[1..]);
    }
  }

  /** `job` still waits in `s`, neither woken in vain nor cancelled. */
  predicate WaitsLive(s: State, ticket: nat) {
    exists i :: 0 <= i < |s.waiters| && s.waiters[i].ticket == ticket && Live(s.waiters[i])
  }

  /** A job that is neither attempting nor queued (it has just released the lock,
      say) gets into its next attempt only after every request waiting now has
      been granted or given up. */
  lemma {:induction false} OthersGoFirst(s: State, es: seq<Event>, job: nat, ticket: nat)
    requires Inv(s) && job !in s.attempting && !Queued(s, job) && WaitsLive(s, ticket)
    requires job in Run(s, es).attempting
    ensures ticket in Run(s, es).granted || ticket in Run(s, es).givenUp
  {
    var t := Run(s, es);
    RunInv(s, es);
    RunLater(s, es);
    assert t.granted != s.granted;
    NewTicket(s, t, job);
    if ticket !in t.granted && ticket !in t.givenUp { WaitingIsNewest(t, ticket); }
  }

  /** A request that still waits is newer than every one that was granted. */
  lemma {:induction false} WaitingIsNewest(t: State, ticket: nat)
    requires Inv(t) && ticket < |t.asked| && ticket !in t.granted && ticket !in t.givenUp
    ensures t.granted != [] ==> t.granted[|t.granted| - 1] < ticket
  {
    var i :| 0 <= i < |t.waiters| && t.waiters[i].ticket == ticket;
    assert Live(t.waiters[i]);
  }

  /** The lock a job got since `s` was asked for since `s`. */
  lemma {:induction false} NewTicket(s: State, t: State, job: nat)
    requires Inv(s) && Inv(t) && Later(s, t) && t.granted != s.granted && !Queued(s, job) && job in t.attempting
    ensures |s.asked| <= t.granted[|t.granted| - 1]
  {
    var last := t.granted[|t.granted| - 1];
    assert t.asked[last] == job && last !in t.givenUp;
    forall k | 0 <= k < |s.granted| ensures s.granted[k] != last {
      assert s.granted[k] == t.granted[k];
    }
    forall i | 0 <= i < |s.waiters| ensures s.asked[s.waiters[i].ticket] != job {
      assert Find(s.asked, s.waiters, job) == |s.waiters|;
    }
    if last < |s.asked| {
      assert false;
    }
  }
}
