/** The `SessionTrace` class, against a recursive meaning of the code that runs under it. */
module Trace {
  import opened Ble
  import opened KeyOrder
  import opened OrderedMap

  // ── Code that runs under a trace ─────────────────────────────────────────

  /** A block of code as the trace sees it. `Stage` is `with trace.timed(name)`;
      `Catch` is `try: body except: handler`, where a handler that raises stands
      for a re-raise; `Spend` moves the clock. */
  datatype Block =
    | Skip
    | Spend(time: int)
    | Raise
    | Then(first: Block, second: Block)
    | Stage(name: string, body: Block)
    | Catch(body: Block, handler: Block)
    | Fail(name: string)
    | Forgive(only: Option<string>)
    | Record(name: string, seconds: int)

  predicate Raises(b: Block) {
    match b
    case Raise => true
    case Then(p, q) => Raises(p) || Raises(q)
    case Stage(_, p) => Raises(p)
    case Catch(p, h) => Raises(p) && Raises(h)
    case _ => false
  }

  function Elapsed(b: Block): int {
    match b
    case Spend(t) => t
    case Then(p, q) => Elapsed(p) + (if Raises(p) then 0 else Elapsed(q))
    case Stage(_, p) => Elapsed(p)
    case Catch(p, h) => Elapsed(p) + (if Raises(p) then Elapsed(h) else 0)
    case _ => 0
  }

  /** Every run of a stage, in the order the runs finish. */
  function Runs(b: Block): seq<(string, int)> {
    match b
    case Then(p, q) => Runs(p) + (if Raises(p) then [] else Runs(q))
    case Stage(n, p) => Runs(p) + [(n, Elapsed(p))]
    case Catch(p, h) => Runs(p) + (if Raises(p) then Runs(h) else [])
    case Record(n, s) => [(n, s)]
    case _ => []
  }

  /** The stages `b` opens, in the order it enters them, and those it books on the way. */
  function Opened(b: Block): seq<string> {
    match b
    case Then(p, q) => Opened(p) + (if Raises(p) then [] else Opened(q))
    case Stage(n, p) => [n] + Opened(p)
    case Catch(p, h) => Opened(p) + (if Raises(p) then Opened(h) else [])
    case Record(n, _) => [n]
    case _ => []
  }

  /** What bears on the failed stage, in order: failures that hit a stage, and pardons. */
  datatype Mark = Hit(name: string) | Pardon(only: Option<string>)

  function Marks(b: Block): seq<Mark> {
    match b
    case Then(p, q) => Marks(p) + (if Raises(p) then [] else Marks(q))
    case Stage(n, p) => Marks(p) + (if Raises(p) then [Hit(n)] else [])
    case Catch(p, h) => Marks(p) + (if Raises(p) then Marks(h) else [])
    case Fail(n) => [Hit(n)]
    case Forgive(o) => [Pardon(o)]
    case _ => []
  }

  function Judge(failed: Option<string>, m: Mark): Option<string> {
    match m
    case Hit(n) => if failed.None? then Some(n) else failed
    case Pardon(o) => if o.None? || failed == o then None else failed
  }

  function JudgeAll(failed: Option<string>, ms: seq<Mark>): Option<string> {
    if ms == [] then failed else Judge(JudgeAll(failed, ms[..|ms| - 1]), ms[|ms| - 1])
  }

  // ── The class ────────────────────────────────────────────────────────────

  function Add(d: Dict<int>, name: string, seconds: int): Dict<int> {
    Put(d, name, (if Get(d, name).Some? then Get(d, name).value else 0) + seconds)
  }

  function AddAll(d: Dict<int>, runs: seq<(string, int)>): Dict<int> {
    if runs == [] then d else Add(AddAll(d, runs[..|runs| - 1]), runs[|runs| - 1].0, runs[|runs| - 1].1)
  }

  class SessionTrace {
    var stack: seq<string>
    var timings: Dict<int>
    var failedStage: Option<string>
    var facts: Dict<string>

    constructor ()
      ensures stack == [] && timings == [] && failedStage == None && facts == []
    {
      stack, timings, failedStage, facts := [], [], None, [];
    }

    method BeginStage(name: string)
      modifies this`stack
      ensures stack == old(stack) + [name]
    {
      stack := stack + [name];
    }

    /** The end of a `timed` block that began at `started`. */
    method EndStage(name: string, started: int, now: int, raised: bool)
      requires stack != []
      modifies this`stack, this`timings, this`failedStage
      ensures stack == old(stack)[..|old(stack)| - 1]
      ensures timings == Add(old(timings), name, now - started)
      ensures failedStage == if raised then Judge(old(failedStage), Hit(name)) else old(failedStage)
    {
      if raised && failedStage.None? {
        failedStage := Some(name);
      }
      stack := stack[..|stack| - 1];
      AddSeconds(name, now - started);
    }

    method AddSeconds(name: string, seconds: int)
      modifies this`timings
      ensures timings == Add(old(timings), name, seconds)
    {
      var sofar := Get(timings, name);
      timings := Put(timings, name, (if sofar.Some? then sofar.value else 0) + seconds);
    }

    method RecordFailure(name: string)
      modifies this`failedStage
      ensures failedStage == Judge(old(failedStage), Hit(name))
    {
      if failedStage.None? {
        failedStage := Some(name);
      }
    }

    method ForgiveStage(only: Option<string>)
      modifies this`failedStage
      ensures failedStage == Judge(old(failedStage), Pardon(only))
    {
      if only.None? || failedStage == only {
        failedStage := None;
      }
    }

    method Note(key: string, value: Option<string>)
      modifies this`facts
      ensures facts == if value.Some? then Put(old(facts), key, value.value) else old(facts)
    {
      if value.Some? { facts := Put(facts, key, value.value); }
    }

    /** Runs `b` under this trace, from time `now` on. */
    method Run(b: Block, now: int) returns (raised: bool, later: int)
      modifies this`stack, this`timings, this`failedStage
      ensures stack == old(stack)
      ensures raised == Raises(b) && later == now + Elapsed(b)
      ensures timings == AddAll(old(timings), Runs(b))
      ensures failedStage == JudgeAll(old(failedStage), Marks(b))
      decreases b
    {
      hide Add, Judge;
      raised, later := false, now;
      match b {
        case Skip =>
        case Spend(t) => later := now + t;
        case Raise => raised := true;
        case Then(p, q) =>
          raised, later := Run(p, now);
          if !raised {
            raised, later := Run(q, later);
            AddAllJoin(old(timings), Runs(p), Runs(q));
            JudgeAllJoin(old(failedStage), Marks(p), Marks(q));
          } else {
            assert Runs(b) == Runs(p) && Marks(b) == Marks(p);
          }
        case Stage(name, body) =>
          BeginStage(name);
          raised, later := Run(body, now);
          EndStage(name, now, later, raised);
          AddAllJoin(old(timings), Runs(body), [(name, Elapsed(body))]);
          JudgeAllJoin(old(failedStage), Marks(body), if raised then [Hit(name)] else []);
          assert stack == old(stack);
        case Catch(body, handler) =>
          raised, later := Run(body, now);
          if raised {
            raised, later := Run(handler, later);
            AddAllJoin(old(timings), Runs(body), Runs(handler));
            JudgeAllJoin(old(failedStage), Marks(body), Marks(handler));
          } else {
            assert Runs(b) == Runs(body) && Marks(b) == Marks(body);
          }
        case Fail(name) => RecordFailure(name); JudgeAllOne(old(failedStage), Hit(name));
        case Forgive(only) => ForgiveStage(only); JudgeAllOne(old(failedStage), Pardon(only));
        case Record(name, seconds) => AddSeconds(name, seconds); AddAllJoin(old(timings), [], [(name, seconds)]);
      }
    }
  }

  lemma {:induction false} AddAllJoin(d: Dict<int>, a: seq<(string, int)>, b: seq<(string, int)>)
    ensures AddAll(d, a + b) == AddAll(AddAll(d, a), b)
    ensures |b| == 1 ==> AddAll(d, a + b) == Add(AddAll(d, a), b[0].0, b[0].1)
  {
    if b == [] {
      assert a + b == a;
    } else {
      assert (a + b)[..|a + b| - 1] == a + b[..|b| - 1];
      AddAllJoin(d, a, b[..|b| - 1]);
    }
  }

  lemma {:induction false} JudgeAllJoin(f: Option<string>, a: seq<Mark>, b: seq<Mark>)
    ensures JudgeAll(f, a + b) == JudgeAll(JudgeAll(f, a), b)
    ensures |b| == 1 ==> JudgeAll(f, a + b) == Judge(JudgeAll(f, a), b[0])
  {
    if b == [] {
      assert a + b == a;
    } else {
      assert (a + b)[..|a + b| - 1] == a + b[..|b| - 1];
      JudgeAllJoin(f, a, b[..|b| - 1]);
    }
  }

  lemma {:induction false} JudgeAllOne(f: Option<string>, m: Mark)
    ensures JudgeAll(f, [m]) == Judge(f, m)
  {
    assert JudgeAll(f, [m][..0]) == f;
  }

  // ── Timings ──────────────────────────────────────────────────────────────

  /** Every stage that was opened is timed once for each time it was, however it was left. */
  lemma {:induction false} EveryStageIsTimed(b: Block)
    ensures multiset(Keys(Runs(b))) == multiset(Opened(b))
  {
    hide Keys;
    NothingNamed();
    match b
    case Then(p, q) =>
      EveryStageIsTimed(p);
      EveryStageIsTimed(q);
      SameNames(Runs(p), if Raises(p) then [] else Runs(q), Opened(p), if Raises(p) then [] else Opened(q));
    case Stage(n, p) =>
      EveryStageIsTimed(p);
      OneName(n, Elapsed(p));
      SameNames(Runs(p), [(n, Elapsed(p))], Opened(p), [n]);
    case Catch(p, h) =>
      EveryStageIsTimed(p);
      EveryStageIsTimed(h);
      SameNames(Runs(p), if Raises(p) then Runs(h) else [], Opened(p), if Raises(p) then Opened(h) else []);
    case Record(n, d) => OneName(n, d);
    case _ =>
  }

  lemma {:induction false} NothingNamed()
    ensures Keys<int>([]) == []
  {}

  lemma {:induction false} OneName(name: string, seconds: int)
    ensures Keys([(name, seconds)]) == [name]
  {}

  lemma {:induction false} SameNames(
      a: seq<(string, int)>, b: seq<(string, int)>, x: seq<string>, y: seq<string>)
    requires multiset(Keys(a)) == multiset(x) && multiset(Keys(b)) == multiset(y)
    ensures multiset(Keys(a + b)) == multiset(x + y) == multiset(y + x)
  {
    assert Keys(a + b) == Keys(a) + Keys(b);
  }

  function SumOf(runs: seq<(string, int)>, name: string): int {
    if runs == [] then 0 else
      SumOf(runs[..|runs| - 1], name) + (if runs[|runs| - 1].0 == name then runs[|runs| - 1].1 else 0)
  }

  /** On a fresh trace each timing is the sum of that name's runs, and the names
      stand in the order they first finished. */
  lemma {:induction false} TimingsAreSums(runs: seq<(string, int)>, name: string)
    ensures Keys(AddAll([], runs)) == FirstOf(Keys(runs))
    ensures Get(AddAll([], runs), name) == if name in Keys(runs) then Some(SumOf(runs, name)) else None
  {
    TimingNames(runs);
    TimingSum(runs, name);
  }

  lemma {:induction false} TimingNames(runs: seq<(string, int)>)
    ensures Keys(AddAll([], runs)) == FirstOf(Keys(runs))
  {
    if runs != [] {
      var init, last := runs[..|runs| - 1], runs[|runs| - 1];
      TimingNames(init);
      AddKeys(AddAll([], init), last.0, last.1);
      LastKey(runs);
    }
  }

  lemma {:induction false} TimingSum(runs: seq<(string, int)>, name: string)
    ensures Get(AddAll([], runs), name) == if name in Keys(runs) then Some(SumOf(runs, name)) else None
  {
    if runs != [] {
      var init, last := runs[..|runs| - 1], runs[|runs| - 1];
      TimingSum(init, name);
      AddGet(AddAll([], init), last.0, last.1, name);
      LastKey(runs);
      SumOfAbsent(init, name);
    }
  }

  lemma {:induction false} AddKeys(d: Dict<int>, name: string, seconds: int)
    ensures Keys(Add(d, name, seconds)) == if name in Keys(d) then Keys(d) else Keys(d) + [name]
  {
    PutKeys(d, name, (if Get(d, name).Some? then Get(d, name).value else 0) + seconds);
  }

  lemma {:induction false} AddGet(d: Dict<int>, name: string, seconds: int, key: string)
    ensures Get(Add(d, name, seconds), key) ==
      if key == name then Some(Get(d, name).GetOr(0) + seconds) else Get(d, key)
  {
    PutGet(d, name, Get(d, name).GetOr(0) + seconds, key);
  }

  lemma {:induction false} LastKey(runs: seq<(string, int)>)
    requires runs != []
    ensures Keys(runs) == Keys(runs[..|runs| - 1]) + [runs[|runs| - 1].0]
    ensures Keys(runs)[..|runs| - 1] == Keys(runs[..|runs| - 1])
  {}

  lemma {:induction false} SumOfAbsent(runs: seq<(string, int)>, name: string)
    ensures name !in Keys(runs) ==> SumOf(runs, name) == 0
  {
    if runs != [] {
      assert Keys(runs) == Keys(runs[..|runs| - 1]) + [runs[|runs| - 1].0];
      SumOfAbsent(runs[..|runs| - 1], name);
    }
  }

  /** The clock never goes back while `b` runs. */
  predicate Monotone(b: Block) {
    match b
    case Spend(t) => t >= 0
    case Then(p, q) => Monotone(p) && Monotone(q)
    case Stage(_, p) => Monotone(p)
    case Catch(p, h) => Monotone(p) && Monotone(h)
    case _ => true
  }

  /** The time spent in the stages opened directly in `b`, not inside one another. */
  function ChildTime(b: Block): int {
    match b
    case Stage(_, p) => Elapsed(p)
    case Then(p, q) => ChildTime(p) + (if Raises(p) then 0 else ChildTime(q))
    case Catch(p, h) => ChildTime(p) + (if Raises(p) then ChildTime(h) else 0)
    case _ => 0
  }

  /** The direct children of a stage run take no longer together than the run itself. */
  lemma {:induction false} ChildrenFitTheirParent(b: Block)
    requires Monotone(b)
    ensures 0 <= ChildTime(b) <= Elapsed(b)
  {
    match b
    case Then(p, q) => ChildrenFitTheirParent(p); ChildrenFitTheirParent(q);
    case Stage(_, p) => ChildrenFitTheirParent(p);
    case Catch(p, h) => ChildrenFitTheirParent(p); ChildrenFitTheirParent(h);
    case _ =>
  }

  // ── The failed stage ─────────────────────────────────────────────────────

  predicate Pardons(m: Mark, name: string) {
    m == Pardon(None) || m == Pardon(Some(name))
  }

  /** `name` was recorded at mark `k`, with no failure outstanding, and never pardoned since. */
  predicate StandsSince(failed: Option<string>, ms: seq<Mark>, k: nat, name: string) {
    && k < |ms| && ms[k] == Hit(name) && JudgeAll(failed, ms[..k]) == None
    && forall j :: k < j < |ms| ==> !Pardons(ms[j], name)
  }

  /** The failed stage is the first one hit since the last pardon that took effect. */
  lemma {:induction false} FailedStageIsFirstUnpardoned(ms: seq<Mark>, name: string)
    ensures JudgeAll(None, ms) == Some(name) <==> exists k :: StandsSince(None, ms, k, name)
  {
    if ms != [] {
      var init, last := ms[..|ms| - 1], ms[|ms| - 1];
      FailedStageIsFirstUnpardoned(init, name);
      forall k: nat | k < |init| ensures ms[..k] == init[..k] {}
      if JudgeAll(None, ms) == Some(name) {
        if JudgeAll(None, init) == Some(name) {
          var k: nat :| StandsSince(None, init, k, name);
          assert StandsSince(None, ms, k, name);
        } else {
          assert StandsSince(None, ms, |ms| - 1, name);
        }
      }
      if k: nat :| StandsSince(None, ms, k, name) {
        if k < |init| { assert StandsSince(None, init, k, name); } else { assert ms[..k] == init; }
      }
    }
  }

  /** The stages the escaping exception passes through, innermost first. */
  function Escapes(b: Block): seq<string>
    requires Raises(b)
  {
    match b
    case Raise => []
    case Then(p, q) => if Raises(p) then Escapes(p) else Escapes(q)
    case Stage(n, p) => Escapes(p) + [n]
    case Catch(_, h) => Escapes(h)
  }

  /** The marks left before that exception was raised. */
  function Earlier(b: Block): seq<Mark>
    requires Raises(b)
  {
    match b
    case Raise => []
    case Then(p, q) => if Raises(p) then Earlier(p) else Marks(p) + Earlier(q)
    case Stage(_, p) => Earlier(p)
    case Catch(p, h) => Marks(p) + Earlier(h)
  }

  function Hits(names: seq<string>): seq<Mark> {
    seq(|names|, i requires 0 <= i < |names| => Hit(names[i]))
  }

  lemma {:induction false} HitsPush(names: seq<string>, name: string)
    ensures Hits(names + [name]) == Hits(names) + [Hit(name)]
  {}

  lemma {:induction false} EscapeMarks(b: Block)
    requires Raises(b)
    ensures Marks(b) == Earlier(b) + Hits(Escapes(b))
  {
    match b
    case Raise =>
    case Then(p, q) => if Raises(p) { EscapeMarks(p); } else { EscapeMarks(q); }
    case Stage(n, p) =>
      EscapeMarks(p);
      HitsPush(Escapes(p), n);
    case Catch(p, h) => EscapeMarks(h);
  }

  lemma {:induction false} HitsKeepTheFirst(failed: Option<string>, names: seq<string>)
    ensures JudgeAll(failed, Hits(names))
         == if failed.Some? || names == [] then failed else Some(names[0])
  {
    if names != [] {
      var init := names[..|names| - 1];
      assert Hits(names)[..|names| - 1] == Hits(init);
      HitsKeepTheFirst(failed, init);
    }
  }

  /** The failure an escaping exception leaves: one that was already outstanding
      when it was raised, else the innermost stage it escaped from. */
  function EscapeFailure(failed: Option<string>, b: Block): Option<string>
    requires Raises(b)
  {
    var before := JudgeAll(failed, Earlier(b));
    if before.Some? || Escapes(b) == [] then before else Some(Escapes(b)[0])
  }

  lemma {:induction false} InnermostStageWins(failed: Option<string>, b: Block)
    requires Raises(b)
    ensures JudgeAll(failed, Marks(b)) == EscapeFailure(failed, b)
  {
    EscapeMarks(b);
    JudgeAllJoin(failed, Earlier(b), Hits(Escapes(b)));
    HitsKeepTheFirst(JudgeAll(failed, Earlier(b)), Escapes(b));
  }
}
