/** The `Notifications` object: its queue, the waits on it and the requests made of them.

    Its methods run along any schedule of the event loop, and each is proved to do
    what the corresponding function of TimedWait and Waits says: the machine's
    state, the time, how much of the schedule was read and the outcome. What that
    means is proved there. */
module Notifications {
  import opened Ble
  import opened TimedWait
  import opened Waits
  import opened WaitMachine
  import Transfer

  /** The event loop's side of the object: everything of a WaitMachine state but
      the queue and the drop event, which live here and in the event itself. */
  datatype Loop = Loop(
    ready: seq<Callback>,
    getter: Getter,
    dropper: Dropper,
    waiter: Waiter,
    mustCancel: bool,
    outcome: Outcome,
    arrivals: seq<Frame>,
    consumed: seq<Frame>,
    beforeDrop: nat,
    ticks: nat)

  class Notifications {
    const client: Client
    const event: DropEvent?
    var queue: seq<Frame>
    var loop: Loop
    var now: int

    function View(): State
      reads this, event
    {
      State(queue, event != null && event.isSet, event != null, loop.ready, loop.getter, loop.dropper,
        loop.waiter, loop.mustCancel, loop.outcome, loop.arrivals, loop.consumed, loop.beforeDrop, loop.ticks)
    }

    function At(): Moment
      reads this, event
    {
      Moment(View(), now)
    }

    /** Between calls: a reachable state with no wait running. */
    ghost predicate Valid()
      reads this, event
    {
      Inv(View()) && loop.waiter == NotWaiting && (event == null ==> client.registered == null)
    }

    constructor (client: Client, event: DropEvent?)
      ensures Valid() && this.client == client && this.event == (if event == null then client.registered else event)
      ensures queue == [] && now == 0
    {
      this.client := client;
      this.event := if event == null then client.registered else event;
      queue, now := [], 0;
      loop := Loop([Tick], NoGetter, NoDropper, NotWaiting, false, NoWait, [], [], 0, 0);
    }

    /** One step of the event loop that runs none of this object's own code. */
    method Perform(e: Event)
      modifies this`queue, this`loop, event
      ensures View() == Next(old(View()), e)
    {
      var t := Next(View(), e);
      queue := t.queue;
      if event != null { event.isSet := t.dropped; }
      loop := Loop(t.ready, t.getter, t.dropper, t.waiter, t.mustCancel, t.outcome,
                   t.arrivals, t.consumed, t.beforeDrop, t.ticks);
    }

    /** Takes everything queued, in order. */
    method Drain() returns (taken: seq<Frame>)
      modifies this`queue
      ensures taken == old(queue) && queue == []
    {
      taken := [];
      while queue != []
        invariant taken + queue == old(queue)
        decreases |queue|
      {
        taken := taken + [queue[0]];
        queue := queue[1..];
      }
    }

    method Clear() returns (dropped: seq<Frame>)
      requires Valid()
      modifies this`queue, this`loop
      ensures Valid() && View() == Next(old(View()), Event.Clear)
      ensures dropped == old(queue) && queue == []
    {
      NextInv(View(), Event.Clear);
      dropped := Drain();
      loop := loop.(consumed := loop.consumed + dropped);
    }

    method RequeueFirst(data: Frame)
      modifies this`queue
      ensures queue == [data] + old(queue)
    {
      var rest := Drain();
      var items := [data] + rest;
      var i := 0;
      while i < |items|
        invariant 0 <= i <= |items| && queue == items[..i]
      {
        queue := queue + [items[i]];
        i := i + 1;
      }
    }

    /** `_next` up to its first suspension. */
    method BeginWait()
      requires Valid()
      modifies this`queue, this`loop
      ensures View() == Next(old(View()), StartWait)
    {
      if queue != [] {
        loop := loop.(consumed := loop.consumed + [queue[0]], outcome := Got(queue[0]));
        queue := queue[1..];
      } else if event == null {
        loop := loop.(waiter := Parked, outcome := NoWait);
      } else if event.isSet {
        loop := loop.(outcome := SawDrop);
      } else {
        loop := loop.(getter := GetReady(false), ready := loop.ready + [RunGet]);
        loop := loop.(dropper := DropReady, ready := loop.ready + [RunDrop]);
        loop := loop.(waiter := Parked, outcome := NoWait);
      }
    }

    /** `_next` from the point where its task is resumed, with its `finally`. */
    method ResumeWait()
      requires Inv(View()) && loop.ready != [] && loop.ready[0] == WakeWaiter
      modifies this`queue, this`loop
      ensures View() == Next(old(View()), Turn)
    {
      loop := loop.(ready := loop.ready[1..]);
      var cancelled := loop.mustCancel || loop.waiter == Interrupted;
      var outcome := WasCancelled;
      if event == null {
        if !cancelled {
          outcome := Got(queue[0]);
          loop := loop.(consumed := loop.consumed + [queue[0]]);
          queue := queue[1..];
        }
      } else {
        var delivered := false;
        if !cancelled && loop.getter.GetDone? {
          delivered, outcome := true, Got(loop.getter.frame);
          loop := loop.(consumed := loop.consumed + [loop.getter.frame]);
        }
        if loop.getter.GetDone? && !delivered {
          RequeueFirst(loop.getter.frame);
        }
        if !cancelled && !delivered { outcome := SawDrop; }
      }
      loop := loop.(
        ready := Retire(loop.ready, loop.getter == GetReady(true)) + Leftover(loop.getter, loop.dropper),
        getter := NoGetter, dropper := NoDropper, waiter := NotWaiting, mustCancel := false, outcome := outcome);
    }

    /** `_next` inside a timeout scope that ends at `limit`, run along the
        schedule from position `from`. */
    method NextFrame(limit: Option<int>, env: seq<Env>, from: nat) returns (end: WaitEnd, upto: nat)
      requires Valid() && from <= |env|
      modifies this, event
      ensures Ended(At(), upto, end) == WaitFrom(old(At()), limit, env, from)
      ensures Inv(View()) && (end == Suspended <==> loop.waiter != NotWaiting)
    {
      hide Inv, Next, Advance;
      ghost var m := At();
      NextInv(View(), StartWait);
      BeginWait();
      upto := from;
      var fired, outside := false, false;
      while upto < |env| && loop.waiter != NotWaiting
        invariant upto <= |env| && Inv(View())
        invariant Wait(Running(At(), fired, outside), limit, env, upto) == Wait(Begin(m), limit, env, from)
        decreases |env| - upto
      {
        fired, outside := Read(fired, outside, limit, env[upto]);
        upto := upto + 1;
      }
      if loop.waiter != NotWaiting { return Suspended, upto; }
      match loop.outcome
      case Got(f) => return Delivered(f), upto;
      case SawDrop => return Dropped, upto;
      case _ => return Stopped(!outside), upto;
    }

    /** One entry of the schedule while a wait is running: a step of the loop, or time
        in which the scope's timer may fire. */
    method Read(wasFired: bool, wasOutside: bool, limit: Option<int>, e: Env) returns (fired: bool, outside: bool)
      requires Inv(View()) && loop.waiter != NotWaiting
      modifies this, event
      ensures Running(At(), fired, outside) == Advance(Running(old(At()), wasFired, wasOutside), limit, e)
      ensures Inv(View())
    {
      hide Inv, Next;
      fired, outside := wasFired, wasOutside;
      match e
      case Elapse(d) =>
        if !fired {
          if limit.Some? && now + d >= limit.value {
            now, fired := Max(now, limit.value), true;
            TakeStep(Cancel);
          } else {
            now := now + d;
          }
        }
      case Step(e) =>
        if e != StartWait && e != Event.Clear {
          outside := outside || e == Cancel;
          TakeStep(e);
        }
    }

    /** One loop step; the task's own code runs when it is resumed. */
    method TakeStep(e: Event)
      requires Inv(View())
      modifies this`queue, this`loop, event
      ensures View() == Next(old(View()), e) && Inv(View())
    {
      hide Inv, Next;
      NextInv(View(), e);
      if e == Turn && loop.ready != [] && loop.ready[0] == WakeWaiter {
        ResumeWait();
      } else {
        Perform(e);
      }
    }

    // ── The waits ──────────────────────────────────────────────────────────

    method NextWithin(timeout: int, step: string, env: seq<Env>, from: nat) returns (r: Result<Frame>, upto: nat)
      requires Valid() && from <= |env|
      modifies this, event
      ensures Ended(At(), upto, r) == NextFrom(old(At()), timeout, step, env, from)
      ensures Inv(View()) && (r.Unfinished? <==> loop.waiter != NotWaiting)
    {
      hide Inv, WaitFrom;
      var end;
      end, upto := NextFrame(Some(now + timeout), env, from);
      match end
      case Delivered(f) => r := Returned(f);
      case Dropped => r := Raised(SessionDropped(step));
      case Stopped(expired) => r := Raised(if expired then NotificationTimeout(step) else CancelledError);
      case Suspended => r := Unfinished;
    }

    /** `taken` is what the call took off the queue: the frames turned down and the last one. */
    method WaitFor(accept: Frame -> Verdict, timeout: int, step: string, env: seq<Env>, from: nat)
      returns (r: Result<Frame>, upto: nat, ghost taken: seq<Frame>)
      requires Valid() && from <= |env|
      modifies this, event
      ensures (taken, Ended(At(), upto, r)) == SiftFrom(accept, old(At()), old(now) + timeout, step, env, from)
      ensures Inv(View()) && (r.Unfinished? <==> loop.waiter != NotWaiting)
    {
      hide Inv, WaitFrom;
      var limit := now + timeout;
      taken, upto := [], from;
      AfterNone(SiftFrom(accept, At(), limit, step, env, from));
      while true
        invariant Valid() && upto <= |env|
        invariant After(taken, SiftFrom(accept, At(), limit, step, env, upto))
               == SiftFrom(accept, old(At()), limit, step, env, from)
        decreases |env| - upto, |queue|
      {
        var end;
        end, upto := NextFrame(Some(limit), env, upto);
        assert taken + [] == taken;
        match end {
          case Delivered(f) =>
            match accept(f) {
              case Accept => return Returned(f), upto, taken + [f];
              case Raise(error) => return Raised(error), upto, taken + [f];
              case Reject =>
                AfterJoin(taken, [f], SiftFrom(accept, At(), limit, step, env, upto));
                taken := taken + [f];
            }
          case Dropped => return Raised(SessionDropped(step)), upto, taken;
          case Stopped(expired) =>
            return Raised(if expired then NotificationTimeout(step) else CancelledError), upto, taken;
          case Suspended => return Unfinished, upto, taken;
        }
      }
    }

    /** One round of `next_burst`: what is queued, then one wait of at most `gap`
        and never past `deadline`. `more` is the round's frames, `stop` its outcome. */
    method BurstRound(gap: int, deadline: int, env: seq<Env>, from: nat)
      returns (more: seq<Frame>, stop: Option<Result<()>>, upto: nat)
      requires Valid() && from <= |env|
      modifies this, event
      ensures (more, Ended(At(), upto, stop)) == RoundFrom(gap, deadline, old(At()), env, from)
      ensures Inv(View()) && (stop == Some(Unfinished) <==> loop.waiter != NotWaiting)
    {
      hide Inv, WaitFrom, Next;
      more := Clear();
      var wait := Min(gap, deadline - now);
      if wait <= 0 { return more, Some(Returned(())), from; }
      var end;
      end, upto := NextFrame(Some(now + wait), env, from);
      match end {
        case Delivered(f) => return more + [f], None, upto;
        case Dropped => return more, Some(Returned(())), upto;
        case Stopped(expired) => return more, Some(if expired then Returned(()) else Raised(CancelledError)), upto;
        case Suspended => return more, Some(Unfinished), upto;
      }
    }

    /** `taken` is what the call took off the queue: the burst, if it returned one. */
    method NextBurst(timeout: int, gap: int, step: string, env: seq<Env>, from: nat)
      returns (r: Result<Bytes>, upto: nat, ghost taken: seq<Frame>)
      requires Valid() && from <= |env|
      modifies this, event
      ensures (taken, Ended(At(), upto, r)) == BurstFrom(old(At()), timeout, gap, step, env, from)
      ensures Inv(View()) && (r.Unfinished? <==> loop.waiter != NotWaiting)
    {
      hide Inv, NextFrom, RoundFrom;
      var deadline := now + timeout;
      var first;
      first, upto := NextWithin(timeout, step, env, from);
      if !first.Returned? {
        return if first.Raised? then Raised(first.error) else Unfinished, upto, [];
      }
      ghost var m, start := At(), upto;
      var parts := [first.value];
      ghost var more: seq<Frame> := [];
      AfterNone(CollectFrom(gap, deadline, m, env, start));
      while true
        invariant Valid() && upto <= |env| && parts == [first.value] + more
        invariant After(more, CollectFrom(gap, deadline, At(), env, upto))
               == CollectFrom(gap, deadline, m, env, start)
        decreases |env| - upto
      {
        var frames, stop;
        frames, stop, upto := BurstRound(gap, deadline, env, upto);
        if stop.None? { AfterJoin(more, frames, CollectFrom(gap, deadline, At(), env, upto)); }
        parts, more := parts + frames, more + frames;
        assert parts == [first.value] + more;
        if stop.Some? {
          match stop.value {
            case Returned(_) => return Returned(Join(parts)), upto, parts;
            case Raised(error) => return Raised(error), upto, parts;
            case Unfinished => return Unfinished, upto, parts;
          }
        }
      }
    }

    /** Another await of the same task: the loop goes on, no wait of ours runs. */
    method Pass(env: seq<Env>, from: nat, upto: nat)
      requires Valid() && from <= upto <= |env|
      modifies this, event
      ensures Valid() && At() == IdleFrom(old(At()), env, from, upto)
    {
      hide Inv, Next;
      var i := from;
      while i < upto
        invariant from <= i <= upto && Valid()
        invariant IdleFrom(At(), env, i, upto) == IdleFrom(old(At()), env, from, upto)
      {
        match env[i] {
          case Elapse(d) => now := now + d;
          case Step(e) =>
            if e != StartWait && e != Event.Clear {
              IdleStep(View(), e);
              Perform(e);
            }
        }
        i := i + 1;
      }
    }

    /** The part of `request` in front of the reply: the drop check, `clear`, the
        write and the pause. `written` and `paced` are where in the schedule the
        write and the pause end. */
    method Send(
        data: Bytes, bounded: bool, pace: bool, step: string, env: seq<Env>,
        from: nat, written: nat, paced: nat, end: Transfer.WriteEnd, paceInterrupted: bool)
      returns (r: Result<()>)
      requires Valid() && from <= written <= paced <= |env|
      modifies this, event, client
      ensures Valid()
      ensures old(IsSet(event)) ==>
        r == Raised(SessionDropped(step)) && At() == old(At()) && client.issued == old(client.issued)
      ensures !old(IsSet(event)) ==>
        && client.issued == old(client.issued) + [Issue(data, false)]
        && (r.Returned? <==> Goes(pace, end, paceInterrupted))
        && (!r.Returned? ==> SendFailed(r, bounded, step, end))
        && At() == AskedAt(old(At()), env, from, written, if r.Returned? && pace then paced else written)
    {
      hide Inv, Next;
      if event != null && event.isSet {
        return Raised(SessionDropped(step));
      }
      var _ := Clear();
      var _ := Transfer.StartWrite(client, data, step, event);
      Pass(env, from, written);
      r := Transfer.FinishWrite(client, data, step, bounded, event, end);
      if r.Returned? && pace {
        if paceInterrupted { return Raised(CancelledError); }
        Pass(env, written, paced);
      }
    }

    /** Why a request got no further than its write or its pause. */
    ghost predicate SendFailed<T>(r: Result<T>, bounded: bool, step: string, end: Transfer.WriteEnd)
      reads this, event
    {
      if end == Transfer.Completes then r == Raised(CancelledError)
      else Transfer.Means(r, end, bounded, IsSet(event), step)
    }

    /** `taken` is what was taken off the queue while waiting for the reply. */
    method Request(
        data: Bytes, timeout: int, bounded: bool, accept: Option<Frame -> Verdict>, pace: bool, step: string,
        env: seq<Env>, from: nat, written: nat, paced: nat, end: Transfer.WriteEnd, paceInterrupted: bool)
      returns (r: Result<Frame>, upto: nat, ghost taken: seq<Frame>)
      requires Valid() && from <= written <= paced <= |env|
      modifies this, event, client
      ensures Inv(View())
      ensures old(IsSet(event)) ==>
        r == Raised(SessionDropped(step)) && At() == old(At()) && client.issued == old(client.issued)
      ensures !old(IsSet(event)) ==> client.issued == old(client.issued) + [Issue(data, false)]
      ensures !old(IsSet(event)) && !Goes(pace, end, paceInterrupted) ==>
        && SendFailed(r, bounded, step, end) && !r.Returned?
        && At() == AskedAt(old(At()), env, from, written, written)
      ensures !old(IsSet(event)) && Goes(pace, end, paceInterrupted) ==>
        var start := if pace then paced else written;
        var asked := AskedAt(old(At()), env, from, written, start);
        && asked.state.waiter == NotWaiting
        && (taken, Ended(At(), upto, r)) == ReplyFrom(accept, asked, timeout, step, env, start)
        && (r.Returned? ==>
              && |old(loop.arrivals)| < |loop.consumed| <= |loop.arrivals|
              && r.value == loop.arrivals[|loop.consumed| - 1])
    {
      hide Inv, Next, AskedAt, NextFrom, SiftFrom;
      ghost var m := At();
      var sent := Send(data, bounded, pace, step, env, from, written, paced, end, paceInterrupted);
      upto, taken := if sent.Returned? && pace then paced else written, [];
      if sent.Raised? { return Raised(sent.error), upto, taken; }
      if sent.Unfinished? { return Unfinished, upto, taken; }
      ReplyExplained(m, accept, timeout, step, env, from, written, upto);
      if accept.None? {
        r, upto := NextWithin(timeout, step, env, upto);
        taken := if r.Returned? then [r.value] else [];
      } else {
        r, upto, taken := WaitFor(accept.value, timeout, step, env, upto);
      }
    }
  }

  /** The write returns and the pause after it, if there is one, is not cut short. */
  predicate Goes(pace: bool, end: Transfer.WriteEnd, paceInterrupted: bool) {
    end == Transfer.Completes && !(pace && paceInterrupted)
  }
}
