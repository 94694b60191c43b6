/** Sessions on one host: which link a session runs on, who closes it, and what its drop event says.

    Every await is a script entry: how it ends, how long it takes and which
    links drop meanwhile. Clients are numbered in the order the connects
    returned them, drop events in the order they were made. */
module Session {
  import opened Ble
  import opened OrderedMap
  import opened Trace

  const CONNECT := "connect"
  const SESSION := "session"
  const DISCONNECT := "disconnect"
  const SETTLE_STEP := 250

  type Link = nat

  /** `TimesOut` is the call's own bound, `Cancelled` a cancellation from outside. */
  datatype Ending = Fine | Fails(text: string) | TimesOut | Cancelled

  datatype Await = Await(end: Ending, takes: nat, drops: set<Link>)

  /** One round of the settle: what happens while it waits, and what `is_connected` says after. */
  datatype Poll = Poll(drops: set<Link>, early: nat, cancelled: bool, connected: bool)

  datatype Config = Config(keep: bool, closeStale: bool, settle: nat)

  /** `connected` is what the handed-in client's `is_connected` says; `retried`
      that a failed connect try fired the disconnect callback on the way. */
  datatype Script = Script(
    connected: bool,
    staleClose: Await,
    closeStale: Await,
    connect: Await,
    retried: bool,
    settle: nat -> Poll,
    blockDrops: set<Link>,
    mtu: Option<string>,
    close: Await)

  /** Where a session first failed. */
  datatype Phase = Connecting | Working

  datatype Exit = Exit(yielded: Option<Link>, failure: Option<Phase>, closeCancelled: bool)

  /** A client as it is handed to the block. */
  datatype HandOff = HandOff(link: Link, eventSet: bool)

  function ErrorText(e: Ending): string {
    if e.Fails? then e.text else "TimeoutError"
  }

  predicate Failed(e: Ending) { e.Fails? || e == TimesOut }

  /** What a close leaves in the facts: a failure that is not a cancellation. */
  function CloseFacts(facts: Dict<string>, a: Await, fact: string): Dict<string> {
    if Failed(a.end) then Put(facts, fact + "_error", ErrorText(a.end)) else facts
  }

  class Host {
    var now: int
    var links: nat
    var events: nat
    var setEvents: set<nat>
    var registry: map<Link, nat>      // `_DROPPED`: the event registered for a client
    var callbacks: map<Link, nat>     // the event each client's disconnect callback sets
    ghost var fired: set<Link>        // clients whose callback fired since their connect returned
    var closes: seq<Link>             // disconnect requests issued
    var handOffs: seq<HandOff>

    constructor ()
      ensures WatchExact() && links == 0 && closes == [] && handOffs == []
    {
      now, links, events, setEvents := 0, 0, 0, {};
      registry, callbacks, fired, closes, handOffs := map[], map[], {}, [], [];
    }

    /** The registered event of every client is set exactly when its callback
        has fired since the connect that returned it. */
    ghost predicate WatchExact()
      reads this`links, this`events, this`setEvents, this`registry, this`callbacks, this`fired
    {
      && (forall c: Link :: c < links <==> c in registry)
      && registry == callbacks && fired <= registry.Keys
      && (forall c <- registry :: registry[c] < events && (registry[c] in setEvents <==> c in fired))
      && (forall c <- registry, d <- registry :: registry[c] == registry[d] ==> c == d)
      && (forall e <- setEvents :: e < events)
    }

    /** `still_up`, with `connected` for the client's `is_connected`. */
    predicate StillUp(client: Option<Link>, connected: bool)
      reads this
    {
      client.Some? && connected && (client.value in registry ==> registry[client.value] !in setEvents)
    }

    /** A client that counts as up has not reported a drop since it was opened,
        and one that says it is connected and has not is up. */
    lemma {:induction false} StillUpIsExact(client: Link, connected: bool)
      requires WatchExact() && client < links
      ensures StillUp(Some(client), connected) <==> connected && client !in fired
    {
      assert client in registry;
    }

    lemma {:induction false} IsKnown(client: Link)
      requires WatchExact() && client < links
      ensures client in registry
    {}

    /** The disconnect callbacks of `drops` fire. */
    method Fire(drops: set<Link>)
      requires WatchExact()
      modifies this`setEvents, this`fired
      ensures WatchExact()
      ensures fired == FiredBy(old(fired), drops, registry.Keys)
      ensures forall c <- registry :: registry[c] in setEvents <==> registry[c] in old(setEvents) || c in drops
      ensures forall e :: e in setEvents && e !in old(setEvents) ==> e in callbacks.Values
      ensures old(setEvents) <= setEvents
    {
      var hit := set c | c in drops && c in callbacks :: callbacks[c];
      setEvents := setEvents + hit;
      fired := fired + (drops * registry.Keys);
    }

    method Suspend(a: Await)
      requires WatchExact()
      modifies this`now, this`setEvents, this`fired
      ensures WatchExact() && now == old(now) + a.takes && fired == FiredBy(old(fired), a.drops, registry.Keys)
      ensures forall e :: e in setEvents && e !in old(setEvents) ==> e in callbacks.Values
    {
      now := now + a.takes;
      Fire(a.drops);
    }

    /** `_close`: the request is issued; a failure or the bound becomes a fact. */
    method Close(trace: SessionTrace, client: Link, a: Await, fact: string) returns (cancelled: bool)
      requires WatchExact()
      modifies this`now, this`setEvents, this`fired, this`closes, trace`facts
      ensures WatchExact() && closes == old(closes) + [client]
      ensures fired == FiredBy(old(fired), a.drops, registry.Keys)
      ensures forall e :: e in setEvents && e !in old(setEvents) ==> e in callbacks.Values
      ensures cancelled == (a.end == Cancelled) && now == old(now) + a.takes
      ensures trace.facts == CloseFacts(old(trace.facts), a, fact)
    {
      closes := closes + [client];
      Suspend(a);
      match a.end
      case Fine => return false;
      case Cancelled => return true;
      case Fails(text) => trace.Note(fact + "_error", Some(text)); return false;
      case TimesOut => trace.Note(fact + "_error", Some("TimeoutError")); return false;
    }

    /** `_settle`: goes through every round of the time with the event clear, or ends in
        the first round that was cancelled or found the link down. `rounds` counts
        those that went through. */
    method Settle(link: Link, event: nat, settle: nat, polls: nat -> Poll) returns (ok: bool, ghost rounds: nat)
      requires WatchExact() && link in registry && registry[link] == event && event !in setEvents
      modifies this`now, this`setEvents, this`fired
      ensures WatchExact() && old(now) <= now <= old(now) + settle
      ensures ok ==> event !in setEvents && now == old(now) + settle
      ensures fired == FiredBy(old(fired), PollDrops(polls, if ok then rounds else rounds + 1), registry.Keys)
      ensures SettledFor(polls, link, rounds)
      ensures if ok then Spans(rounds, settle) else rounds * SETTLE_STEP < settle && Unsettles(polls(rounds), link)
      ensures forall e :: e in setEvents && e !in old(setEvents) ==> e in callbacks.Values
    {
      hide FiredBy, WatchExact;
      var started := now;
      var round := 0;
      FiredByNone(fired, registry.Keys);
      while settle - (now - started) > 0
        invariant WatchExact() && event !in setEvents
        invariant now == started + (if round * SETTLE_STEP < settle then round * SETTLE_STEP else settle)
        invariant round > 0 ==> (round - 1) * SETTLE_STEP < settle
        invariant fired == FiredBy(old(fired), PollDrops(polls, round), registry.Keys)
        invariant SettledFor(polls, link, round)
        invariant forall e :: e in setEvents && e !in old(setEvents) ==> e in callbacks.Values
        decreases settle - (now - started)
      {
        var left := settle - (now - started);
        var bound := if left < SETTLE_STEP then left else SETTLE_STEP;
        var poll := polls(round);
        Fire(poll.drops);
        FiredTwice(old(fired), PollDrops(polls, round), poll.drops, registry.Keys);
        if poll.cancelled { return false, round; }
        now := now + if event in setEvents && poll.early < bound then poll.early else bound;
        if event in setEvents || !poll.connected {
          return false, round;
        }
        round := round + 1;
      }
      return true, round;
    }

    /** The `connect` stage: closes a handle that was turned down, opens a fresh
        link and lets it settle. A link that came up is returned even when the
        settle failed, for the caller to close. */
    method Open(trace: SessionTrace, turnedDown: Option<Link>, config: Config, script: Script, event: nat)
      returns (client: Option<Link>, failed: bool, ghost rounds: nat)
      requires WatchExact() && event < events && event !in registry.Values && event !in setEvents
      modifies this`now, this`setEvents, this`fired, this`closes, this`links, this`registry, this`callbacks, trace`facts
      ensures WatchExact()
      ensures closes == old(closes) + AsSeq(turnedDown)
      ensures client.None? ==> failed && links == old(links) && registry == old(registry)
      ensures client.Some? ==>
        client == Some(old(links)) && links == old(links) + 1 && registry == old(registry)[old(links) := event]
      ensures client.Some? <==> Connects(turnedDown, config, script)
      ensures !failed ==> client.Some? && event !in setEvents
      ensures client.Some? ==> SettleTold(config, script, client.value, failed, rounds)
      ensures var through := old(now) + AwaitTime(turnedDown, config, script);
        && through <= now <= through + config.settle
        && (client.None? ==> now == through) && (!failed ==> now == through + config.settle)
      ensures var awaited := FiredBy(old(fired), OpenDrops(turnedDown, config, script), old(registry.Keys));
        fired == FiredBy(awaited, SettleDrops(client, script, failed, rounds), registry.Keys)
      ensures trace.facts ==
        if turnedDown.Some? then CloseFacts(old(trace.facts), script.staleClose, "stale_close") else old(trace.facts)
    {
      hide FiredBy;
      client, failed, rounds := None, true, 0;
      var through := AwaitConnect(trace, turnedDown, config, script);
      if through && script.retried {
        setEvents := setEvents + {event};
      }
      if !through || script.connect.end != Fine {
        FiredByNone(fired, registry.Keys);
        return;
      }
      client := Some(links);
      Register(event);
      var ok := true;
      if config.settle > 0 {
        ok, rounds := Settle(client.value, event, config.settle, script.settle);
      } else {
        FiredByNone(fired, registry.Keys);
      }
      failed := !ok;
    }

    /** What a fresh connect waits for, the connect included: `through` if it got that far. */
    method AwaitConnect(trace: SessionTrace, turnedDown: Option<Link>, config: Config, script: Script)
      returns (through: bool)
      requires WatchExact()
      modifies this`now, this`setEvents, this`fired, this`closes, trace`facts
      ensures WatchExact() && closes == old(closes) + AsSeq(turnedDown)
      ensures forall e :: e in setEvents && e !in old(setEvents) ==> e in callbacks.Values
      ensures through && script.connect.end == Fine <==> Connects(turnedDown, config, script)
      ensures fired == FiredBy(old(fired), OpenDrops(turnedDown, config, script), registry.Keys)
      ensures now == old(now) + AwaitTime(turnedDown, config, script)
      ensures trace.facts ==
        if turnedDown.Some? then CloseFacts(old(trace.facts), script.staleClose, "stale_close") else old(trace.facts)
    {
      if turnedDown.Some? {
        var cancelled := Close(trace, turnedDown.value, script.staleClose, "stale_close");
        if cancelled { return false; }
      }
      if config.closeStale {
        Suspend(script.closeStale);
        if script.closeStale.end != Fine { return false; }
      }
      Suspend(script.connect);
      return true;
    }

    /** A connect has returned the next client: what failed tries recorded is
        cleared and the event registered, with nothing awaited in between. */
    method Register(event: nat)
      requires WatchExact() && event < events && event !in registry.Values
      modifies this`setEvents, this`links, this`registry, this`callbacks
      ensures WatchExact() && event !in setEvents && event in callbacks.Values
      ensures links == old(links) + 1 && registry == old(registry)[old(links) := event]
    {
      callbacks := callbacks[links := event];
      setEvents := setEvents - {event};
      registry := registry[links := event];
      links := links + 1;
      assert registry[links - 1] == event;
    }

    /** The drop event of this session. */
    method NewEvent() returns (event: nat)
      requires WatchExact()
      modifies this`events
      ensures WatchExact() && event == old(events) && events == old(events) + 1
      ensures event !in registry.Values && event !in setEvents
    {
      event := events;
      events := events + 1;
    }

    /** From entry to the point where the block could run: the handed-in client
        is reused if it is still up, else closed and a fresh link opened. */
    method Begin(trace: SessionTrace, config: Config, client: Option<Link>, script: Script)
      returns (link: Option<Link>, failed: bool, ghost rounds: nat)
      requires WatchExact() && (client.Some? ==> client.value < links)
      modifies this, trace
      ensures WatchExact() && old(links) <= links <= old(links) + 1 && handOffs == old(handOffs)
      ensures registry == Registered(old(registry), old(links), links, old(events))
      ensures var reused := old(StillUp(client, script.connected));
        && link == Owned(reused, client, old(links), links) && (reused ==> links == old(links) && !failed)
        && closes == old(closes) + (if reused then [] else AsSeq(client))
        && (!failed ==> link.Some? && registry[link.value] !in setEvents)
        && (!reused ==> (links > old(links) <==> Connects(client, config, script)))
        && (!reused && link.Some? ==> SettleTold(config, script, link.value, failed, rounds))
        && fired == BeginFired(old(fired), old(registry.Keys), reused, client, config, script,
                               link, failed, rounds, registry.Keys)
      ensures trace.stack == old(trace.stack)
      ensures var reused := old(StillUp(client, script.connected));
        && (if reused then now == old(now) else ConnectTime(now - old(now), client, config, script, failed))
        && trace.timings == BeginTimings(old(trace.timings), reused, now - old(now))
      ensures trace.failedStage ==
        if failed then Judge(old(trace.failedStage), Hit(CONNECT)) else old(trace.failedStage)
      ensures trace.facts == BeginFacts(old(trace.facts), old(StillUp(client, script.connected)), client, script)
    {
      hide Judge, Put, Add, AddAll, FiredBy, OpenDrops, PollDrops, SettledFor, Unsettles, WatchExact;
      if client.Some? { IsKnown(client.value); }
      var event := NewEvent();
      if StillUp(client, script.connected) {
        trace.Note("reused", Some("True"));
        return client, false, 0;
      }
      trace.BeginStage(CONNECT);
      var started := now;
      link, failed, rounds := Open(trace, client, config, script, event);
      trace.EndStage(CONNECT, started, now, failed);
    }

    /** The `session` stage: the client is handed to the block, and the block runs. */
    method Hold(trace: SessionTrace, link: Link, script: Script, block: Block) returns (raised: bool)
      requires WatchExact() && link < links && registry[link] !in setEvents
      modifies this, trace
      ensures WatchExact() && links == old(links) && closes == old(closes) && registry == old(registry)
      ensures fired == FiredBy(old(fired), script.blockDrops, registry.Keys)
      ensures handOffs == old(handOffs) + [HandOff(link, false)]
      ensures raised == Raises(block) && trace.stack == old(trace.stack) && now == old(now) + Elapsed(block)
      ensures trace.timings == Add(AddAll(old(trace.timings), Runs(block)), SESSION, Elapsed(block))
      ensures trace.failedStage == Worked(old(trace.failedStage), block)
      ensures trace.facts == NoteFact(old(trace.facts), "mtu", script.mtu)
    {
      hide Judge, JudgeAll, Put, Add, AddAll, Marks, Runs, Elapsed, Raises, FiredBy, WatchExact;
      IsKnown(link);
      trace.BeginStage(SESSION);
      handOffs := handOffs + [HandOff(link, registry[link] in setEvents)];
      var started := now;
      raised, now := trace.Run(block, now);
      trace.EndStage(SESSION, started, now, raised);
      Fire(script.blockDrops);
      trace.Note("mtu", script.mtu);
    }

    /** The close in the session's `finally`. */
    method End(trace: SessionTrace, link: Link, script: Script) returns (cancelled: bool)
      requires WatchExact() && link < links
      modifies this, trace
      ensures WatchExact() && links == old(links) && handOffs == old(handOffs) && registry == old(registry)
      ensures closes == old(closes) + [link] && fired == FiredBy(old(fired), script.close.drops, registry.Keys)
      ensures cancelled == (script.close.end == Cancelled) && trace.stack == old(trace.stack)
      ensures now == old(now) + script.close.takes
      ensures trace.timings == Add(old(trace.timings), DISCONNECT, script.close.takes)
      ensures trace.failedStage ==
        if cancelled then Judge(old(trace.failedStage), Hit(DISCONNECT)) else old(trace.failedStage)
      ensures trace.facts == CloseFacts(old(trace.facts), script.close, "disconnect")
    {
      trace.BeginStage(DISCONNECT);
      var started := now;
      cancelled := Close(trace, link, script.close, "disconnect");
      trace.EndStage(DISCONNECT, started, now, cancelled);
    }

    /** The whole of `ble_session` around `block`. The handed-in `client` is
        reused or turned down; the link the session ends up with is closed
        unless it is kept after a hand-off. */
    method BleSession(trace: SessionTrace, config: Config, client: Option<Link>, script: Script, block: Block)
      returns (exit: Exit, ghost rounds: nat, ghost connecting: int)
      requires WatchExact() && (client.Some? ==> client.value < links)
      modifies this, trace
      ensures WatchExact() && old(links) <= links <= old(links) + 1
      ensures registry == Registered(old(registry), old(links), links, old(events))
      // A fresh link comes up unless the handle is reused, and a close of a stale handle that fails or
      // runs into its bound stops nothing.
      ensures links > old(links) <==>
        && !old(StillUp(client, script.connected))
        && (client.Some? ==> script.staleClose.end != Cancelled)
        && (config.closeStale ==> script.closeStale.end == Fine)
        && script.connect.end == Fine
      // The block runs on the reused link, or on the fresh one if no round of its settle finds it down.
      ensures old(StillUp(client, script.connected)) ==> exit.yielded == client
      ensures !old(StillUp(client, script.connected)) ==>
        exit.yielded == if links > old(links) && StaysUp(script.settle, old(links), config.settle)
                        then Some(old(links)) else None
      // A turned-down handle is closed first; the link owned is closed unless it was handed off to keep. Each
      // phase is timed for as long as it took, and the session takes no time but theirs.
      ensures var reused := old(StillUp(client, script.connected));
        var owned := if reused then client else if links > old(links) then Some(old(links)) else None;
        var yielded := exit.yielded.Some?;
        var closed := owned.Some? && !(config.keep && yielded);
        && closes == old(closes) + (if reused then [] else AsSeq(client)) + (if closed then [owned.value] else [])
        && exit.closeCancelled == (closed && script.close.end == Cancelled)
        && (owned.Some? && !reused ==> SettleTold(config, script, owned.value, !yielded, rounds))
        && trace.facts == SessionFacts(old(trace.facts), reused, client, script, yielded, closed)
        && fired == EndFired(BeginFired(old(fired), old(registry.Keys), reused, client, config, script,
                                        owned, !yielded, rounds, registry.Keys),
                             script, yielded, closed, registry.Keys)
        && (if reused then connecting == 0 else ConnectTime(connecting, client, config, script, !yielded))
        && now == old(now) + connecting + (if yielded then Elapsed(block) else 0)
                  + (if closed then script.close.takes else 0)
        && trace.timings == AddAll(old(trace.timings),
             (if reused then [] else [(CONNECT, connecting)])
             + (if yielded then Runs(block) + [(SESSION, Elapsed(block))] else [])
             + (if closed then [(DISCONNECT, script.close.takes)] else []))
      ensures handOffs == old(handOffs) + (if exit.yielded.Some? then [HandOff(exit.yielded.value, false)] else [])
      ensures trace.stack == old(trace.stack)
      ensures trace.failedStage == Attributed(old(trace.failedStage), exit, block)
      ensures Consistent(exit, block)
    {
      hide AddAll, FiredBy, Judge, JudgeAll, Put, WatchExact, SettledFor, StaysUp, ConnectTime, OpenDrops, PollDrops,
        Marks, Runs, Elapsed, SettleTold, BeginFired, EndFired, BeginFacts, EndFacts, EndTimings,
        BeginTimings, Registered, Unsettles, Raises, Worked;
      ghost var reused := StillUp(client, script.connected);
      var link, failed;
      link, failed, rounds := Begin(trace, config, client, script);
      connecting := now - old(now);
      if !reused && link.Some? { SettledExactly(config, script, link.value, failed, rounds); }
      exit := Finish(trace, config, link, failed, script, block);
      SessionTimings(old(trace.timings), reused, connecting, exit.yielded.Some?, block,
        Closes(config.keep, link, exit.yielded), script.close.takes);
    }

    /** From the point where the block could run: the block, and the `finally`. */
    method Finish(trace: SessionTrace, config: Config, link: Option<Link>, failed: bool, script: Script, block: Block)
      returns (exit: Exit)
      requires WatchExact() && (link.Some? ==> link.value < links)
      requires !failed ==> link.Some? && registry[link.value] !in setEvents
      modifies this, trace
      ensures WatchExact() && links == old(links) && registry == old(registry)
      ensures exit.yielded == if failed then None else link
      ensures var closed := Closes(config.keep, link, exit.yielded);
        && closes == old(closes) + (if closed then AsSeq(link) else [])
        && exit.closeCancelled == (closed && script.close.end == Cancelled)
        && fired == EndFired(old(fired), script, !failed, closed, registry.Keys)
        && now == old(now) + (if failed then 0 else Elapsed(block)) + (if closed then script.close.takes else 0)
        && trace.timings == EndTimings(old(trace.timings), !failed, block, closed, script.close.takes)
        && trace.facts == EndFacts(old(trace.facts), script, !failed, closed)
      ensures handOffs == old(handOffs) + (if exit.yielded.Some? then [HandOff(exit.yielded.value, false)] else [])
      ensures trace.stack == old(trace.stack) && Consistent(exit, block)
      ensures trace.failedStage ==
        var worked := if failed then old(trace.failedStage) else Worked(old(trace.failedStage), block);
        if exit.closeCancelled then Judge(worked, Hit(DISCONNECT)) else worked
    {
      hide Add, AddAll, FiredBy, Judge, JudgeAll, Put, WatchExact, Marks, Runs, Elapsed, Raises, CloseFacts, NoteFact;
      var yielded, failure := Use(trace, link, failed, script, block);
      var closeCancelled := false;
      if link.Some? && (!config.keep || yielded.None?) {
        closeCancelled := End(trace, link.value, script);
      }
      exit := Exit(yielded, failure, closeCancelled);
    }

    /** The block, if the session got that far. */
    method Use(trace: SessionTrace, link: Option<Link>, failed: bool, script: Script, block: Block)
      returns (yielded: Option<Link>, failure: Option<Phase>)
      requires WatchExact()
      requires !failed ==> link.Some? && link.value < links && registry[link.value] !in setEvents
      modifies this, trace
      ensures WatchExact() && links == old(links) && closes == old(closes) && registry == old(registry)
      ensures fired == if failed then old(fired) else FiredBy(old(fired), script.blockDrops, registry.Keys)
      ensures yielded == if failed then None else link
      ensures failure == if failed then Some(Connecting) else if Raises(block) then Some(Working) else None
      ensures handOffs == old(handOffs) + (if yielded.Some? then [HandOff(yielded.value, false)] else [])
      ensures trace.stack == old(trace.stack)
      ensures now == old(now) + (if failed then 0 else Elapsed(block))
      ensures trace.timings == if failed then old(trace.timings) else
        Add(AddAll(old(trace.timings), Runs(block)), SESSION, Elapsed(block))
      ensures trace.failedStage ==
        if failed then old(trace.failedStage) else Worked(old(trace.failedStage), block)
      ensures trace.facts == if failed then old(trace.facts) else NoteFact(old(trace.facts), "mtu", script.mtu)
    {
      if failed { return None, Some(Connecting); }
      var raised := Hold(trace, link.value, script, block);
      return link, if raised then Some(Working) else None;
    }

    // ── Any sequence of sessions ───────────────────────────────────────────

    /** No link is stranded: each one has been asked to close, or is the handle
        the caller keeps. And every hand-off so far had its drop event clear. */
    ghost predicate Accounted(held: Option<Link>)
      reads this
    {
      && WatchExact()
      && (held.Some? ==> held.value < links)
      && Covered(closes, links, held)
      && (forall h <- handOffs :: !h.eventSet)
    }

    /** One session of a caller that passes in the handle it kept and, once it is
        handed a client, keeps that one or none. Links may drop in between. */
    method RunJob(job: Job, held: Option<Link>) returns (kept: Option<Link>)
      requires Accounted(held)
      modifies this
      ensures Accounted(kept)
      ensures !job.config.keep ==> Covered(closes, links, None)
      ensures forall c <- old(closes) :: c in closes
      ensures FiredBy(old(fired), job.idleDrops, old(registry.Keys)) <= fired
      ensures forall c <- old(registry) :: c in registry && registry[c] == old(registry)[c]
    {
      Fire(job.idleDrops);
      hide WatchExact, SessionFacts, Attributed, SettleTold, Connects, BeginFired, EndFired, OpenDrops, Covered;
      var trace := new SessionTrace();
      ghost var before, known, recorded, first := closes, registry.Keys, fired, links;
      var reused := StillUp(held, job.script.connected);
      var exit, rounds, connecting := BleSession(trace, job.config, held, job.script, job.block);
      assert before <= closes;
      Unstranded(before, first, held, reused, links, exit.yielded, job.config.keep, closes);
      FiredStays(recorded, known, reused, held, job.config, job.script, Owned(reused, held, first, links),
        exit.yielded.None?, rounds, registry.Keys, exit.yielded.Some?,
        Closes(job.config.keep, Owned(reused, held, first, links), exit.yielded));
      kept := if exit.yielded.None? then held else if job.config.keep then exit.yielded else None;
    }

    method RunJobs(jobs: seq<Job>) returns (kept: Option<Link>)
      requires links == 0 && WatchExact() && handOffs == []
      modifies this
      ensures Accounted(kept)
      ensures jobs != [] && !jobs[|jobs| - 1].config.keep ==> forall c: Link :: c < links ==> c in closes
    {
      kept := None;
      for i := 0 to |jobs|
        invariant Accounted(kept)
        invariant i > 0 && !jobs[i - 1].config.keep ==> Covered(closes, links, None)
      {
        kept := RunJob(jobs[i], kept);
      }
    }
  }

  /** One session of a run: how it is configured, what happens in it, and which links drop before it. */
  datatype Job = Job(config: Config, script: Script, block: Block, idleDrops: set<Link>)

  // ── Which drops a session records ────────────────────────────────────────

  /** The drops recorded once the callbacks of `drops` have fired: those of known links count. */
  function FiredBy(fired: set<Link>, drops: set<Link>, known: set<Link>): set<Link> {
    fired + drops * known
  }

  lemma {:induction false} FiredByNone(fired: set<Link>, known: set<Link>)
    ensures FiredBy(fired, {}, known) == fired
  {}

  lemma {:induction false} FiredTwice(fired: set<Link>, a: set<Link>, b: set<Link>, known: set<Link>)
    ensures FiredBy(FiredBy(fired, a, known), b, known) == FiredBy(fired, a + b, known)
  {}

  /** The drops during the first `n` rounds of a settle. */
  function PollDrops(polls: nat -> Poll, n: nat): set<Link> {
    if n == 0 then {} else PollDrops(polls, n - 1) + polls(n - 1).drops
  }

  function SettleDrops(link: Option<Link>, script: Script, failed: bool, rounds: nat): set<Link> {
    if link.None? then {} else PollDrops(script.settle, if failed then rounds + 1 else rounds)
  }

  /** The drops during whatever a fresh link is awaited by, as far as it gets. */
  function OpenDrops(turnedDown: Option<Link>, config: Config, script: Script): set<Link> {
    var stale := if turnedDown.Some? then script.staleClose.drops else {};
    var closing := if config.closeStale then script.closeStale.drops else {};
    if turnedDown.Some? && script.staleClose.end == Cancelled then stale
    else if config.closeStale && script.closeStale.end != Fine then stale + closing
    else stale + closing + script.connect.drops
  }

  /** The time of the same awaits. */
  function AwaitTime(turnedDown: Option<Link>, config: Config, script: Script): nat {
    var stale := if turnedDown.Some? then script.staleClose.takes else 0;
    var closing := if config.closeStale then script.closeStale.takes else 0;
    if turnedDown.Some? && script.staleClose.end == Cancelled then stale
    else if config.closeStale && script.closeStale.end != Fine then stale + closing
    else stale + closing + script.connect.takes
  }

  /** The drops recorded when the block could begin, and when the session has ended. */
  function BeginFired(
      fired: set<Link>, known: set<Link>, reused: bool, client: Option<Link>, config: Config, script: Script,
      owned: Option<Link>, failed: bool, rounds: nat, after: set<Link>): set<Link>
  {
    if reused then fired else
      FiredBy(FiredBy(fired, OpenDrops(client, config, script), known),
              SettleDrops(owned, script, failed, rounds), after)
  }

  function EndFired(begun: set<Link>, script: Script, yielded: bool, closed: bool, known: set<Link>): set<Link> {
    var worked := if yielded then FiredBy(begun, script.blockDrops, known) else begun;
    if closed then FiredBy(worked, script.close.drops, known) else worked
  }

  /** The drop of a link is recorded exactly if it falls in an await the session got
      to while the link was known. */
  lemma {:induction false} DropsRecorded(
      fired: set<Link>, known: set<Link>, reused: bool, client: Option<Link>, config: Config, script: Script,
      owned: Option<Link>, failed: bool, rounds: nat, after: set<Link>, yielded: bool, closed: bool, link: Link)
    ensures
      link in EndFired(BeginFired(fired, known, reused, client, config, script, owned, failed, rounds, after),
                       script, yielded, closed, after) <==>
      || link in fired
      || (!reused && link in known && (
            || (client.Some? && link in script.staleClose.drops)
            || (config.closeStale && (client.Some? ==> script.staleClose.end != Cancelled)
                && link in script.closeStale.drops)
            || ((client.Some? ==> script.staleClose.end != Cancelled)
                && (config.closeStale ==> script.closeStale.end == Fine) && link in script.connect.drops)))
      || (!reused && owned.Some? && link in after
          && exists k :: 0 <= k < (if failed then rounds + 1 else rounds) && link in script.settle(k).drops)
      || (yielded && link in after && link in script.blockDrops)
      || (closed && link in after && link in script.close.drops)
  {
    PollDropsAre(script.settle, if failed then rounds + 1 else rounds, link);
  }

  lemma {:induction false} PollDropsAre(polls: nat -> Poll, n: nat, link: Link)
    ensures link in PollDrops(polls, n) <==> exists k :: 0 <= k < n && link in polls(k).drops
  {
    if n > 0 { PollDropsAre(polls, n - 1, link); }
  }

  lemma {:induction false} FiredStays(
      fired: set<Link>, known: set<Link>, reused: bool, client: Option<Link>, config: Config, script: Script,
      owned: Option<Link>, failed: bool, rounds: nat, after: set<Link>, yielded: bool, closed: bool)
    ensures fired <=
      EndFired(BeginFired(fired, known, reused, client, config, script, owned, failed, rounds, after),
               script, yielded, closed, after)
  {}

  /** The registry after a session: a fresh link has the session's own event, every
      other keeps the one it had. */
  function Registered(registry: map<Link, nat>, before: nat, after: nat, event: nat): map<Link, nat> {
    if after > before then registry[before := event] else registry
  }

  /** Every link so far has been asked to close, or is the one held. */
  predicate Covered(closes: seq<Link>, links: nat, held: Option<Link>) {
    forall c: Link :: c < links ==> c in closes || held == Some(c)
  }

  /** A session that closes what it owns and does not hand over leaves no link behind. */
  lemma {:induction false} Unstranded(
      before: seq<Link>, first: nat, held: Option<Link>, reused: bool, links: nat, yielded: Option<Link>, keep: bool,
      closes: seq<Link>)
    requires Covered(before, first, held) && first <= links <= first + 1 && (reused ==> held.Some? && links == first)
    requires yielded.Some? ==> yielded == Owned(reused, held, first, links)
    requires var owned := Owned(reused, held, first, links);
      closes == before + (if reused then [] else AsSeq(held))
                + (if Closes(keep, owned, yielded) then AsSeq(owned) else [])
    ensures Covered(closes, links, if yielded.None? then held else if keep then yielded else None)
    ensures !keep ==> Covered(closes, links, None)
  {}

  function AsSeq(c: Option<Link>): seq<Link> {
    if c.Some? then [c.value] else []
  }

  /** The link a session holds when it reaches its `finally`. */
  function Owned(reused: bool, client: Option<Link>, before: nat, after: nat): Option<Link> {
    if reused then client else if after > before then Some(before) else None
  }

  /** A session closes the link it owns unless it keeps one it has handed off. */
  predicate Closes(keep: bool, owned: Option<Link>, yielded: Option<Link>) {
    owned.Some? && !(keep && yielded.Some?)
  }

  /** A fresh connect gets as far as returning a client. */
  predicate Connects(turnedDown: Option<Link>, config: Config, script: Script) {
    && (turnedDown.Some? ==> script.staleClose.end != Cancelled)
    && (config.closeStale ==> script.closeStale.end == Fine)
    && script.connect.end == Fine
  }

  /** This round ends the settle: cancelled, or the link found down. */
  predicate Unsettles(poll: Poll, link: Link) {
    poll.cancelled || !poll.connected || link in poll.drops
  }

  /** The first `n` rounds found the link up and went through. */
  predicate SettledFor(polls: nat -> Poll, link: Link, n: nat) {
    forall k :: 0 <= k < n ==> !Unsettles(polls(k), link)
  }

  /** `n` rounds of `SETTLE_STEP` and no fewer fill the time. */
  predicate Spans(n: nat, settle: nat) {
    settle <= n * SETTLE_STEP && (n > 0 ==> (n - 1) * SETTLE_STEP < settle)
  }

  /** A link that came up: the settle went through `rounds` rounds, which are all
      there are unless the session failed in the round after them. */
  predicate SettleTold(config: Config, script: Script, link: Link, failed: bool, rounds: nat) {
    && SettledFor(script.settle, link, rounds)
    && (if failed then rounds * SETTLE_STEP < config.settle && Unsettles(script.settle(rounds), link)
        else Spans(rounds, config.settle))
  }

  /** Each time the settle looks, until its time is over, the link has not dropped and is connected. */
  ghost predicate StaysUp(polls: nat -> Poll, link: Link, settle: nat) {
    forall k: nat :: k * SETTLE_STEP < settle ==>
      !polls(k).cancelled && polls(k).connected && link !in polls(k).drops
  }

  lemma {:induction false} SettledExactly(config: Config, script: Script, link: Link, failed: bool, rounds: nat)
    requires SettleTold(config, script, link, failed, rounds)
    ensures failed <==> !StaysUp(script.settle, link, config.settle)
  {
    forall k: nat | !failed && k * SETTLE_STEP < config.settle ensures !Unsettles(script.settle(k), link) {
      assert k < rounds;
    }
  }

  /** What the `connect` stage takes: each await it gets to, and for a link that is
      handed over the whole settle as well. */
  predicate ConnectTime(seconds: int, client: Option<Link>, config: Config, script: Script, failed: bool) {
    var full := (if client.Some? then script.staleClose.takes else 0)
      + (if config.closeStale then script.closeStale.takes else 0) + script.connect.takes + config.settle;
    if failed then 0 <= seconds <= full else seconds == full
  }

  /** The timings when the block could begin, and what the rest adds to them. */
  function BeginTimings(timings: Dict<int>, reused: bool, connecting: int): Dict<int> {
    if reused then timings else Add(timings, CONNECT, connecting)
  }

  function EndTimings(timings: Dict<int>, yielded: bool, block: Block, closed: bool, closing: int): Dict<int> {
    var worked := if yielded then Add(AddAll(timings, Runs(block)), SESSION, Elapsed(block)) else timings;
    if closed then Add(worked, DISCONNECT, closing) else worked
  }

  lemma {:induction false} SessionTimings(
      timings: Dict<int>, reused: bool, connecting: int, yielded: bool, block: Block, closed: bool, closing: int)
    ensures EndTimings(BeginTimings(timings, reused, connecting), yielded, block, closed, closing)
      == AddAll(timings,
           (if reused then [] else [(CONNECT, connecting)])
           + (if yielded then Runs(block) + [(SESSION, Elapsed(block))] else [])
           + (if closed then [(DISCONNECT, closing)] else []))
  {
    hide Add, AddAll;
    var first := if reused then [] else [(CONNECT, connecting)];
    var second := if yielded then Runs(block) + [(SESSION, Elapsed(block))] else [];
    AddNone(timings);
    AddAllJoin(timings, [], first);
    AddAllJoin(timings, first, second);
    AddAllJoin(AddAll(timings, first), Runs(block), [(SESSION, Elapsed(block))]);
    AddAllJoin(timings, first + second, if closed then [(DISCONNECT, closing)] else []);
    assert [] + first == first && first + [] == first && first + second + [] == first + second;
  }

  lemma {:induction false} AddNone(timings: Dict<int>)
    ensures AddAll(timings, []) == timings
  {}

  function NoteFact(facts: Dict<string>, key: string, value: Option<string>): Dict<string> {
    if value.Some? then Put(facts, key, value.value) else facts
  }

  function BeginFacts(facts: Dict<string>, reused: bool, client: Option<Link>, script: Script): Dict<string> {
    if reused then Put(facts, "reused", "True")
    else if client.Some? then CloseFacts(facts, script.staleClose, "stale_close")
    else facts
  }

  /** Everything a session notes: how the link came about, the MTU, and the closes that failed. */
  function SessionFacts(
      facts: Dict<string>, reused: bool, client: Option<Link>, script: Script, yielded: bool, closed: bool)
    : Dict<string>
  {
    EndFacts(BeginFacts(facts, reused, client, script), script, yielded, closed)
  }

  function EndFacts(facts: Dict<string>, script: Script, yielded: bool, closed: bool): Dict<string> {
    var noted := if yielded then NoteFact(facts, "mtu", script.mtu) else facts;
    if closed then CloseFacts(noted, script.close, "disconnect") else noted
  }

  /** What each fact says after a session: the failure of a close is the fact named
      after it and stops nothing, and no other fact is touched. */
  lemma {:induction false} FactsOfASession(
      facts: Dict<string>, reused: bool, client: Option<Link>, script: Script, yielded: bool, closed: bool, key: string)
    ensures Get(SessionFacts(facts, reused, client, script, yielded, closed), key) ==
      if key == "disconnect_error" && closed && FailureOf(script.close.end).Some? then FailureOf(script.close.end)
      else if key == "mtu" && yielded && script.mtu.Some? then script.mtu
      else if key == "stale_close_error" && !reused && client.Some? && FailureOf(script.staleClose.end).Some?
        then FailureOf(script.staleClose.end)
      else if key == "reused" && reused then Some("True")
      else Get(facts, key)
  {
    hide Put, CloseFacts;
    var begun := BeginFacts(facts, reused, client, script);
    PutGet(facts, "reused", "True", key);
    CloseFactsGet(facts, script.staleClose, "stale_close", key);
    var noted := if yielded then NoteFact(begun, "mtu", script.mtu) else begun;
    PutGet(begun, "mtu", script.mtu.GetOr(""), key);
    CloseFactsGet(noted, script.close, "disconnect", key);
    FactNames();
  }

  lemma {:induction false} FactNames()
    ensures "stale_close" + "_error" == "stale_close_error" && "disconnect" + "_error" == "disconnect_error"
    ensures |"stale_close_error"| == 17 && |"disconnect_error"| == 16 && |"mtu"| == 3 && |"reused"| == 6
  {}

  /** What a close is reported to have failed with. */
  function FailureOf(e: Ending): Option<string> {
    match e
    case Fails(text) => Some(text)
    case TimesOut => Some("TimeoutError")
    case _ => None
  }

  /** A close that raised or ran into its own bound is the `disconnect_error`
      fact, and that fact appears for no other reason. */
  lemma {:induction false} DisconnectErrorFact(
      facts: Dict<string>, reused: bool, client: Option<Link>, script: Script, yielded: bool, closed: bool)
    ensures Get(SessionFacts(facts, reused, client, script, yielded, closed), "disconnect_error")
         == if closed && Failed(script.close.end) then Some(ErrorText(script.close.end))
            else Get(facts, "disconnect_error")
  {
    hide SessionFacts;
    FactsOfASession(facts, reused, client, script, yielded, closed, "disconnect_error");
    FactNames();
  }

  lemma {:induction false} CloseFactsGet(facts: Dict<string>, a: Await, fact: string, key: string)
    ensures Get(CloseFacts(facts, a, fact), key) ==
      if Failed(a.end) && key == fact + "_error" then Some(ErrorText(a.end)) else Get(facts, key)
  {
    PutGet(facts, fact + "_error", ErrorText(a.end), key);
  }

  /** The failed stage the block leaves, as the `session` stage around it. */
  function Worked(failed: Option<string>, block: Block): Option<string> {
    var inBlock := JudgeAll(failed, Marks(block));
    if Raises(block) then Judge(inBlock, Hit(SESSION)) else inBlock
  }

  /** The failed stage a session leaves, from the one it found. */
  function Attributed(failed: Option<string>, exit: Exit, block: Block): Option<string> {
    var worked := if exit.yielded.None? then Judge(failed, Hit(CONNECT)) else Worked(failed, block);
    if exit.closeCancelled then Judge(worked, Hit(DISCONNECT)) else worked
  }

  /** How an exit is said to have failed. */
  predicate Consistent(exit: Exit, block: Block) {
    exit.failure == if exit.yielded.None? then Some(Connecting) else if Raises(block) then Some(Working) else None
  }

  /** Where the blame for an exit belongs: `connect` if the block never ran; the
      stage of the block's own failure, or `session`, if it raised; otherwise
      what the block left recorded, and only then a cancelled close. */
  function Blamed(exit: Exit, block: Block): Option<string> {
    match exit.failure
    case Some(Connecting) => Some(CONNECT)
    case Some(Working) => if Raises(block) then Some(EscapeFailure(None, block).GetOr(SESSION)) else None
    case None =>
      var left := JudgeAll(None, Marks(block));
      if left.Some? then left else if exit.closeCancelled then Some(DISCONNECT) else None
  }

  /** From a clean trace, every exit path of a session leaves the blame there. */
  lemma {:induction false} SessionBlame(exit: Exit, block: Block)
    requires Consistent(exit, block)
    ensures Attributed(None, exit, block) == Blamed(exit, block)
  {
    if Raises(block) { InnermostStageWins(None, block); }
  }
}
