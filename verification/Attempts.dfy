/** The loop that runs a job: what each attempt comes to, when the lock is held, and what is carried over. */
module Attempts {
  import opened Ble
  import opened Stages
  import Trace

  /** The entries of a state dict at one moment. */
  datatype Scratch = Scratch(entries: map<string, int>)

  /** The dict an attempt carries. */
  class StateDict {
    var entries: Scratch

    constructor (entries: Scratch)
      ensures this.entries == entries
    {
      this.entries := entries;
    }
  }

  /** Everything about a finished attempt but its dict. */
  datatype Outcome = Outcome(
    number: nat,
    result: Option<int>,
    error: Option<Exc>,
    timedOut: bool,
    skipped: Option<string>,
    retrying: bool,
    failed: Option<string>)

  class Attempt {
    const number: nat
    const trace: Trace.SessionTrace
    const state: StateDict
    var result: Option<int>
    var error: Option<Exc>
    var timedOut: bool
    var skipped: Option<string>
    var retrying: bool

    constructor (number: nat, entries: Scratch)
      ensures this.number == number && state.entries == entries && fresh(state) && fresh(trace)
      ensures View() == Outcome(number, None, None, false, None, false, None)
    {
      this.number := number;
      this.trace := new Trace.SessionTrace();
      this.state := new StateDict(entries);
      result, error, skipped, timedOut, retrying := None, None, None, false, false;
    }

    function View(): Outcome
      reads this, trace
    {
      Outcome(number, result, error, timedOut, skipped, retrying, trace.failedStage)
    }
  }

  datatype GuardEnd = Passes | Declines(value: string) | GuardRaises

  /** How `attempt_fn` ends: `Cancelled` is a `CancelledError` that gets out of it,
      `outside` that someone else than the bound has cancelled it as well. */
  datatype BodyEnd = Returns(value: int) | Raises(exc: Exc) | Cancelled(outside: bool)

  datatype CallEnd = Quiet | CallRaises

  /** `retry_if`: the default, or one of the caller's. */
  datatype RetryIf = Default | Own(yes: bool) | OwnRaises

  /** What happens around one attempt. `boundFired` is `bound.expired()`,
      `failed` the stage its trace then names, and the three functions what the
      attempt function, `retry_if` and `on_attempt` do to the attempt's own dict. */
  datatype Try = Try(
    guard: GuardEnd,
    body: BodyEnd,
    boundFired: bool,
    failed: Option<string>,
    retry: RetryIf,
    record: CallEnd,
    pauseCancelled: bool,
    inBody: Scratch -> Scratch,
    inRetry: Scratch -> Scratch,
    inRecord: Scratch -> Scratch)

  datatype RunEnd = Finished | BadArgument | CallbackRaised | WasCancelled

  // ── What one try comes to ────────────────────────────────────────────────

  /** The attempt's error, if it has one. */
  function ErrorOf(t: Try, stages: StageMap): Option<Exc> {
    if t.guard != Passes then None
    else match t.body
         case Returns(_) => None
         case Raises(e) => Some(if t.boundFired then TimedOut(t.failed, stages) else e)
         case Cancelled(outside) => if t.boundFired && !outside then Some(TimedOut(t.failed, stages)) else None
  }

  function DefaultRetryIf(timedOut: bool, error: Option<Exc>): bool {
    !timedOut && (error.None? || !error.value.final)
  }

  /** This try gets out of the lock with an outcome rather than an exception. */
  predicate Completes(t: Try) {
    t.guard != GuardRaises && (t.guard == Passes && t.body.Cancelled? ==> t.boundFired && !t.body.outside)
  }

  predicate TimesOut(t: Try) {
    t.guard == Passes && t.boundFired && (t.body.Raises? || (t.body.Cancelled? && !t.body.outside))
  }

  predicate RetryAsked(t: Try, stages: StageMap, number: nat, maxAttempts: int) {
    ErrorOf(t, stages).Some? && number < maxAttempts
  }

  /** Another attempt follows this one. */
  predicate Retries(t: Try, stages: StageMap, number: nat, maxAttempts: int) {
    && RetryAsked(t, stages, number, maxAttempts)
    && match t.retry
       case Default => DefaultRetryIf(TimesOut(t), ErrorOf(t, stages))
       case Own(yes) => yes
       case OwnRaises => false
  }

  /** The dict as the try leaves it, from the entries it started with. */
  function Leaves(t: Try, stages: StageMap, number: nat, maxAttempts: int, entries: Scratch): Scratch {
    var a := if t.guard == Passes then t.inBody(entries) else entries;
    var b := if RetryAsked(t, stages, number, maxAttempts) && t.retry != Default then t.inRetry(a) else a;
    t.inRecord(b)
  }

  /** The parameters of one run and what happens around each attempt, counted from 1. */
  datatype Setup = Setup(maxAttempts: int, stages: StageMap, script: nat -> Try)

  /** What attempt `number` comes to under the lock, before the loop decides on a retry. */
  function Tried(t: Try, stages: StageMap, number: nat): Outcome {
    var ran := t.guard == Passes;
    Outcome(number, if ran && t.body.Returns? then Some(t.body.value) else None, ErrorOf(t, stages), TimesOut(t),
      if t.guard.Declines? then Some(t.guard.value) else None, false, if ran then t.failed else None)
  }

  function OutcomeOf(p: Setup, number: nat): Outcome {
    var t := p.script(number);
    Tried(t, p.stages, number).(retrying := Retries(t, p.stages, number, p.maxAttempts))
  }

  /** The attempt with this number, as it was handed over: its own outcome and
      verdict, and its dict as the try left it. */
  ghost predicate HandedOver(p: Setup, attempt: Attempt, number: nat, entries: Scratch)
    reads attempt, attempt.trace, attempt.state
  {
    && attempt.View() == OutcomeOf(p, number)
    && attempt.state.entries == Leaves(p.script(number), p.stages, number, p.maxAttempts, entries)
  }

  /** Attempts numbered from 1, the first with an empty dict, each later one with
      a copy of what the one before still holds, in a dict of its own. */
  ghost predicate History(p: Setup, recorded: seq<Attempt>, starts: seq<Scratch>)
    reads recorded, set a <- recorded :: a.trace, set a <- recorded :: a.state
  {
    && |starts| == |recorded|
    && (forall i :: 0 <= i < |recorded| ==> HandedOver(p, recorded[i], i + 1, starts[i]))
    && (starts != [] ==> starts[0] == Scratch(map[]))
    && (forall i, j :: 0 <= i && j == i + 1 && j < |recorded| ==> starts[j] == recorded[i].state.entries)
    && (forall i, j :: 0 <= i < j < |recorded| ==> recorded[i].state != recorded[j].state)
  }

  // ── Each kind of try ─────────────────────────────────────────────────────

  /** The attempt has an error: one its function raised, or the bound's in its place. */
  predicate Fails(t: Try) {
    t.guard == Passes && (t.body.Raises? || (t.body == Cancelled(false) && t.boundFired))
  }

  /** Its own error is lost to the bound exactly when that has fired, and a result never is. */
  lemma {:induction false} OutcomeByKind(p: Setup, number: nat)
    ensures var t, o := p.script(number), OutcomeOf(p, number);
      var stage, detail := PrimaryOf(t.failed, p.stages), DetailOf(t.failed, p.stages);
      && o.number == number
      && (t.guard.Declines? ==>
            o.skipped == Some(t.guard.value) && o.result == None && !o.timedOut && o.failed == None)
      && (t.guard == Passes ==>
            && o.skipped == None && o.failed == t.failed
            && o.result == (if t.body.Returns? then Some(t.body.value) else None)
            && (o.timedOut <==> Fails(t) && t.boundFired)
            && (t.body.Raises? && !t.boundFired ==> o.error == Some(t.body.exc))
            && (o.timedOut ==> o.error == Some(Exc("Attempt timed out", stage, detail, false, true))))
      && (o.error.Some? <==> Fails(t))
  {}

  /** The default goes on after an error of the attempt's own that is not final, and
      never after the bound; `retry_if` has the say otherwise, but only about a
      failure, and only while there are attempts left. */
  lemma {:induction false} RetryByKind(p: Setup, number: nat)
    ensures var t, retrying := p.script(number), OutcomeOf(p, number).retrying;
      match t.retry
      case Default =>
        retrying <==>
        number < p.maxAttempts && t.guard == Passes && !t.boundFired && t.body.Raises? && !t.body.exc.final
      case Own(yes) => retrying <==> number < p.maxAttempts && Fails(t) && yes
      case OwnRaises => !retrying
  {}

  /** The dict passes through the attempt function if it ran, `retry_if` if it was
      asked, and `on_attempt`, in that order. */
  lemma {:induction false} DictByKind(p: Setup, number: nat, entries: Scratch)
    ensures var t := p.script(number);
      Leaves(t, p.stages, number, p.maxAttempts, entries) ==
        if t.guard != Passes then t.inRecord(entries)
        else if Fails(t) && number < p.maxAttempts && t.retry != Default then t.inRecord(t.inRetry(t.inBody(entries)))
        else t.inRecord(t.inBody(entries))
  {}

  /** What gets out of the loop: an exception of the caller's own functions, and a
      cancellation that was not the bound's alone; no failure of the attempt does. */
  lemma {:induction false} EndByKind(p: Setup, number: nat)
    ensures var t := p.script(number);
      var stopped := t.guard == Passes && t.body.Cancelled? && (t.body.outside || !t.boundFired);
      var refused := Fails(t) && number < p.maxAttempts && t.retry == OwnRaises;
      && (Hands(p, number) <==> t.guard != GuardRaises && !stopped && !refused)
      && RoundEnd(p, number) ==
           if t.guard == GuardRaises || refused then CallbackRaised
           else if stopped then WasCancelled
           else if t.record == CallRaises then CallbackRaised
           else if OutcomeOf(p, number).retrying && t.pauseCancelled then WasCancelled
           else Finished
  {}

  // ── The order of events ──────────────────────────────────────────────────

  /** What the loop does, in order. */
  datatype Mark = Acquired | Guarded | Ran | Released | Asked | Recorded | Paused

  function LockedLog(t: Try): seq<Mark> {
    [Acquired, Guarded] + (if t.guard == Passes then [Ran] else []) + [Released]
  }

  /** The try is handed to `on_attempt`. */
  predicate Hands(p: Setup, number: nat) {
    var t := p.script(number);
    Completes(t) && !(RetryAsked(t, p.stages, number, p.maxAttempts) && t.retry == OwnRaises)
  }

  /** How the round of attempt `number` leaves the loop: `Finished` is either
      the end of the run or the start of the next round. */
  function RoundEnd(p: Setup, number: nat): RunEnd {
    var t := p.script(number);
    if !Completes(t) then (if t.guard == GuardRaises then CallbackRaised else WasCancelled)
    else if !Hands(p, number) || t.record == CallRaises then CallbackRaised
    else if OutcomeOf(p, number).retrying && t.pauseCancelled then WasCancelled
    else Finished
  }

  /** The first `n` rounds each led to another. */
  predicate WentOn(p: Setup, n: int) {
    n <= 0 || (WentOn(p, n - 1) && GoesOn(p, n))
  }

  /** The loop has another round after this one. */
  predicate GoesOn(p: Setup, number: nat) {
    RoundEnd(p, number) == Finished && OutcomeOf(p, number).retrying
  }

  function DecisionLog(p: Setup, number: nat): seq<Mark> {
    (if RetryAsked(p.script(number), p.stages, number, p.maxAttempts) then [Asked] else [])
    + (if Hands(p, number) then [Recorded] else [])
  }

  function RoundLog(p: Setup, number: nat): seq<Mark> {
    var t := p.script(number);
    LockedLog(t)
    + (if Completes(t) then DecisionLog(p, number) else [])
    + (if Hands(p, number) && t.record != CallRaises && OutcomeOf(p, number).retrying then [Paused] else [])
  }

  function Rank(m: Mark): nat {
    match m
    case Acquired => 0
    case Guarded => 1
    case Ran => 2
    case Released => 3
    case Asked => 4
    case Recorded => 5
    case Paused => 6
  }

  predicate InOrder(log: seq<Mark>) {
    forall i, j :: 0 <= i < j < |log| ==> Rank(log[i]) < Rank(log[j])
  }

  function Add(log: seq<Mark>, m: Mark, done: bool): seq<Mark> {
    if done then log + [m] else log
  }

  /** Ordered, and nothing in it that comes as late as `rank`. */
  predicate Before(log: seq<Mark>, rank: nat) {
    InOrder(log) && forall m <- log :: Rank(m) < rank
  }

  lemma {:induction false} AddInOrder(log: seq<Mark>, m: Mark, done: bool)
    requires Before(log, Rank(m))
    ensures Before(Add(log, m, done), Rank(m) + 1)
    ensures forall x :: x in Add(log, m, done) <==> x in log || (done && x == m)
  {}

  /** A round does each thing once at most and in one order: `retry_if` before
      `on_attempt`, which sees every attempt but one whose `retry_if` raised, and
      the pause after that, in front of another attempt only. */
  lemma {:induction false} RoundInOrder(p: Setup, number: nat)
    ensures var t, log := p.script(number), RoundLog(p, number);
      && InOrder(log) && Acquired in log && Guarded in log && Released in log
      && (Ran in log <==> t.guard == Passes)
      && (Asked in log <==> Fails(t) && number < p.maxAttempts)
      && (Recorded in log <==> Hands(p, number))
      && (Paused in log <==> Hands(p, number) && t.record != CallRaises && OutcomeOf(p, number).retrying)
  {
    hide Hands, OutcomeOf, Add, Fails, InOrder, RoundLog;
    var t := p.script(number);
    var asked, handed := Fails(t) && number < p.maxAttempts, Hands(p, number);
    var paused := handed && t.record != CallRaises && OutcomeOf(p, number).retrying;
    RoundLogParts(p, number);
    var entered := [Acquired, Guarded];
    assert Before(entered, 2) by { FirstInOrder(); }
    var ran := Add(entered, Ran, t.guard == Passes);
    AddInOrder(entered, Ran, t.guard == Passes);
    var left := Add(ran, Released, true);
    AddInOrder(ran, Released, true);
    var decided := Add(left, Asked, asked);
    AddInOrder(left, Asked, asked);
    var recorded := Add(decided, Recorded, handed);
    AddInOrder(decided, Recorded, handed);
    AddInOrder(recorded, Paused, paused);
  }

  lemma {:induction false} FirstInOrder()
    ensures Before([Acquired, Guarded], 2)
  {}

  lemma {:induction false} RoundLogParts(p: Setup, number: nat)
    ensures var t, handed := p.script(number), Hands(p, number);
      RoundLog(p, number) ==
        Add(Add(Add(Add(Add([Acquired, Guarded], Ran, t.guard == Passes), Released, true),
              Asked, Fails(t) && number < p.maxAttempts), Recorded, handed),
            Paused, handed && t.record != CallRaises && OutcomeOf(p, number).retrying)
  {
    hide Hands, OutcomeOf, RetryAsked, Completes, Fails;
    HandsCompletes(p, number);
  }

  lemma {:induction false} HandsCompletes(p: Setup, number: nat)
    ensures Hands(p, number) || (Fails(p.script(number)) && number < p.maxAttempts) ==> Completes(p.script(number))
    ensures RetryAsked(p.script(number), p.stages, number, p.maxAttempts) <==>
            Fails(p.script(number)) && number < p.maxAttempts
  {}

  function RunLog(p: Setup, rounds: nat): seq<Mark> {
    if rounds == 0 then [] else RunLog(p, rounds - 1) + RoundLog(p, rounds)
  }

  /** Whether the lock is held after `log`, if it was `held` before. */
  function Held(held: bool, log: seq<Mark>): bool
    decreases |log|
  {
    if log == [] then held
    else Held(match log[0] case Acquired => true case Released => false case _ => held, log[1..])
  }

  /** The guard and the attempt run under the lock, everything else without it. */
  predicate Disciplined(held: bool, log: seq<Mark>)
    decreases |log|
  {
    log == [] ||
      match log[0]
      case Acquired => !held && Disciplined(true, log[1..])
      case Released => held && Disciplined(false, log[1..])
      case Guarded => held && Disciplined(held, log[1..])
      case Ran => held && Disciplined(held, log[1..])
      case _ => !held && Disciplined(held, log[1..])
  }

  lemma {:induction false} DisciplinedJoin(held: bool, a: seq<Mark>, b: seq<Mark>)
    ensures Held(held, a + b) == Held(Held(held, a), b)
    ensures Disciplined(held, a + b) <==> Disciplined(held, a) && Disciplined(Held(held, a), b)
    decreases |a|
  {
    if a == [] {
      assert a + b == b;
    } else {
      assert (a + b)[1..] == a[1..] + b;
      DisciplinedJoin(match a[0] case Acquired => true case Released => false case _ => held, a[1..], b);
    }
  }

  /** However a run goes, the lock covers the guards and the attempts and nothing
      else: `retry_if`, `on_attempt` and the pause find it released, and it is
      released at the end. */
  lemma {:induction false} LockPerAttempt(p: Setup, rounds: nat)
    ensures Disciplined(false, RunLog(p, rounds)) && !Held(false, RunLog(p, rounds))
  {
    if rounds > 0 {
      LockPerAttempt(p, rounds - 1);
      RoundDisciplined(p, rounds);
      DisciplinedJoin(false, RunLog(p, rounds - 1), RoundLog(p, rounds));
    }
  }

  lemma {:induction false} RoundDisciplined(p: Setup, number: nat)
    ensures Disciplined(false, RoundLog(p, number)) && !Held(false, RoundLog(p, number))
  {
    var t := p.script(number);
    var a := LockedLog(t);
    var b := if Completes(t) then DecisionLog(p, number) else [];
    var c := if Hands(p, number) && t.record != CallRaises && OutcomeOf(p, number).retrying then [Paused] else [];
    LockedDisciplined(t);
    Unlocked(b);
    Unlocked(c);
    DisciplinedJoin(false, a, b);
    DisciplinedJoin(false, a + b, c);
  }

  lemma {:induction false} LockedDisciplined(t: Try)
    ensures Disciplined(false, LockedLog(t)) && !Held(false, LockedLog(t))
  {
    var rest := if t.guard == Passes then [Ran] else [];
    DisciplinedJoin(true, rest, [Released]);
    assert LockedLog(t)[1..][1..] == rest + [Released];
    assert Disciplined(true, [Released]) by { assert Disciplined(false, [Released][1..]); }
    assert rest != [] ==> rest[1..] == [];
  }

  lemma {:induction false} Unlocked(log: seq<Mark>)
    requires forall i :: 0 <= i < |log| ==> log[i] == Asked || log[i] == Recorded || log[i] == Paused
    ensures Disciplined(false, log) && !Held(false, log)
    decreases |log|
  {
    if log != [] {
      Unlocked(log[1..]);
      assert log[0] == Asked || log[0] == Recorded || log[0] == Paused;
    }
  }

  // ── The loop ─────────────────────────────────────────────────────────────

  /** One attempt under the lock: the guard, then the bounded attempt function. */
  method UnderLock(attempt: Attempt, t: Try, stages: StageMap) returns (end: RunEnd, log: seq<Mark>)
    requires attempt.View() == Outcome(attempt.number, None, None, false, None, false, None)
    modifies attempt, attempt.state, attempt.trace
    ensures log == LockedLog(t)
    ensures end == if Completes(t) then Finished else if t.guard == GuardRaises then CallbackRaised else WasCancelled
    ensures end == Finished ==> attempt.View() == Tried(t, stages, attempt.number)
    ensures end == Finished ==>
      var before := old(attempt.state.entries);
      attempt.state.entries == if t.guard == Passes then t.inBody(before) else before
  {
    log := [Acquired, Guarded];
    if t.guard == GuardRaises {
      return CallbackRaised, log + [Released];
    }
    end := Finished;
    if t.guard.Declines? {
      attempt.skipped := Some(t.guard.value);
    } else {
      log := log + [Ran];
      attempt.state.entries := t.inBody(attempt.state.entries);
      attempt.trace.failedStage := t.failed;
      match t.body {
        case Returns(value) => attempt.result := Some(value);
        case Cancelled(outside) =>
          // The bound turns the cancellation into its own error only if it was the only one to cancel.
          if t.boundFired && !outside {
            attempt.timedOut := true;
            attempt.error := Some(TimedOut(attempt.trace.failedStage, stages));
          } else {
            end := WasCancelled;
          }
        case Raises(exc) =>
          attempt.error := Some(exc);
          if t.boundFired {
            attempt.timedOut := true;
            attempt.error := Some(TimedOut(attempt.trace.failedStage, stages));
          }
      }
    }
    log := log + [Released];
  }

  /** After the lock: whether another attempt follows, then `on_attempt`. */
  method Decide(attempt: Attempt, p: Setup) returns (end: RunEnd, log: seq<Mark>)
    requires attempt.View() == Tried(p.script(attempt.number), p.stages, attempt.number)
    requires Completes(p.script(attempt.number))
    modifies attempt`retrying, attempt.state
    ensures log == DecisionLog(p, attempt.number)
    ensures end ==
      if Hands(p, attempt.number) && p.script(attempt.number).record != CallRaises then Finished else CallbackRaised
    ensures Hands(p, attempt.number) ==>
      var t := p.script(attempt.number);
      && attempt.View() == OutcomeOf(p, attempt.number)
      && attempt.state.entries == t.inRecord(
           if RetryAsked(t, p.stages, attempt.number, p.maxAttempts) && t.retry != Default
           then t.inRetry(old(attempt.state.entries)) else old(attempt.state.entries))
  {
    var t := p.script(attempt.number);
    log := [];
    var retrying := false;
    if attempt.error.Some? && attempt.skipped.None? && attempt.number < p.maxAttempts {
      log := log + [Asked];
      match t.retry {
        case Default => retrying := DefaultRetryIf(attempt.timedOut, attempt.error);
        case Own(yes) =>
          attempt.state.entries := t.inRetry(attempt.state.entries);
          retrying := yes;
        case OwnRaises =>
          return CallbackRaised, log;
      }
    }
    attempt.retrying := retrying;
    log := log + [Recorded];
    attempt.state.entries := t.inRecord(attempt.state.entries);
    return if t.record == CallRaises then CallbackRaised else Finished, log;
  }

  /** One round of the loop. The attempt and everything it owns are new. */
  method RunOne(p: Setup, number: nat, entries: Scratch) returns (end: RunEnd, attempt: Attempt, log: seq<Mark>)
    ensures fresh(attempt) && fresh(attempt.state) && fresh(attempt.trace)
    ensures end == RoundEnd(p, number) && log == RoundLog(p, number)
    ensures Hands(p, number) ==> HandedOver(p, attempt, number, entries)
  {
    attempt := new Attempt(number, entries);
    end, log := UnderLock(attempt, p.script(number), p.stages);
    if end != Finished { return; }
    var decision;
    end, decision := Decide(attempt, p);
    log := log + decision;
    if end == Finished && attempt.retrying {
      log := log + [Paused];
      if p.script(number).pauseCancelled { end := WasCancelled; }
    }
  }

  lemma {:induction false} HistoryAppend(
      p: Setup, recorded: seq<Attempt>, starts: seq<Scratch>, attempt: Attempt, entries: Scratch)
    requires History(p, recorded, starts) && HandedOver(p, attempt, |recorded| + 1, entries)
    requires forall a <- recorded :: a.state != attempt.state
    requires entries == if recorded == [] then Scratch(map[]) else recorded[|recorded| - 1].state.entries
    ensures History(p, recorded + [attempt], starts + [entries])
  {
    var r, s := recorded + [attempt], starts + [entries];
    forall i | 0 <= i < |r| ensures HandedOver(p, r[i], i + 1, s[i]) {
      if i < |recorded| { assert r[i] == recorded[i] && s[i] == starts[i]; }
    }
  }

  /** A round added to the history of a run, and whether the loop goes on after it. */
  method AddRound(p: Setup, before: seq<Attempt>, startsBefore: seq<Scratch>)
    returns (end: RunEnd, goesOn: bool, recorded: seq<Attempt>, starts: seq<Scratch>, log: seq<Mark>)
    requires History(p, before, startsBefore)
    ensures var number := |before| + 1;
      && end == RoundEnd(p, number) && goesOn == GoesOn(p, number) && log == RoundLog(p, number)
      && |recorded| == (if Hands(p, number) then number else |before|)
      && (goesOn ==> |recorded| == number)
    ensures History(p, recorded, starts)
  {
    recorded, starts := before, startsBefore;
    var start := if before == [] then Scratch(map[]) else before[|before| - 1].state.entries;
    var attempt;
    end, attempt, log := RunOne(p, |before| + 1, start);
    if Hands(p, |before| + 1) {
      HistoryAppend(p, before, startsBefore, attempt, start);
      recorded, starts := before + [attempt], startsBefore + [start];
    }
    goesOn := end == Finished && attempt.retrying;
  }

  /** `rounds` attempts were started; `recorded` are those handed to `on_attempt`,
      `starts` the entries each of these started with. */
  method RunAttempts(p: Setup)
    returns (end: RunEnd, rounds: nat, recorded: seq<Attempt>, starts: seq<Scratch>, log: seq<Mark>)
    ensures p.maxAttempts < 1 ==> end == BadArgument && rounds == 0
    ensures p.maxAttempts >= 1 ==> 1 <= rounds <= p.maxAttempts && end == RoundEnd(p, rounds) && !GoesOn(p, rounds)
    ensures WentOn(p, rounds - 1)
    ensures |recorded| == if rounds == 0 || Hands(p, rounds) then rounds else rounds - 1
    ensures History(p, recorded, starts)
    ensures log == RunLog(p, rounds)
  {
    hide RoundEnd, RoundLog, Hands, OutcomeOf, HandedOver;
    recorded, starts, log, rounds := [], [], [], 0;
    if p.maxAttempts < 1 {
      return BadArgument, rounds, recorded, starts, log;
    }
    for number := 1 to p.maxAttempts + 1
      invariant |recorded| == rounds == number - 1 && History(p, recorded, starts)
      invariant WentOn(p, rounds)
      invariant log == RunLog(p, rounds)
    {
      var goesOn, marks;
      end, goesOn, recorded, starts, marks := AddRound(p, recorded, starts);
      rounds, log := number, log + marks;
      if !goesOn { return; }
    }
    assert false by { LastIsFinal(p); }
  }

  lemma {:induction false} LastIsFinal(p: Setup)
    requires p.maxAttempts >= 1
    ensures !GoesOn(p, p.maxAttempts)
  {}
}
