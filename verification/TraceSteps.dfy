/** Code under a trace, run one step at a time: a machine with a list of what is left
    to do, that knows neither what a block raises nor how long it takes. What the
    trace class is proved to do (see Trace) is shown to be what this machine does. */
module TraceSteps {
  import opened Ble
  import opened OrderedMap
  import opened Trace

  /** What is left to run, outermost last: code, the end of a stage that began at
      `started`, the handler of the code in front of it. */
  datatype Task = Do(b: Block) | Close(name: string, started: int) | Handle(h: Block)

  /** A trace with the clock, and whether an exception is on its way out. */
  datatype Tape = Tape(
    clock: int,
    stack: seq<string>,
    timings: Dict<int>,
    failedStage: Option<string>,
    raising: bool)

  /** One task at a time: an exception passes over code, ends stages as it leaves
      them, and stops at a handler. The tape, and what is put in front of the rest. */
  function Tick(t: Tape, task: Task): (Tape, seq<Task>) {
    match task
    case Close(n, started) => (Closed(t, n, started), [])
    case Handle(h) => (t.(raising := false), if t.raising then [Do(h)] else [])
    case Do(b) =>
      if t.raising then (t, []) else
        match b
        case Skip => (t, [])
        case Spend(d) => (t.(clock := t.clock + d), [])
        case Raise => (t.(raising := true), [])
        case Then(p, q) => (t, [Do(p), Do(q)])
        case Stage(n, p) => (t.(stack := t.stack + [n]), [Do(p), Close(n, t.clock)])
        case Catch(p, h) => (t, [Do(p), Handle(h)])
        case Fail(n) => (t.(failedStage := if t.failedStage.None? then Some(n) else t.failedStage), [])
        case Forgive(o) => (if o.None? || o == t.failedStage then t.(failedStage := None) else t, [])
        case Record(n, d) => (t.(timings := Put(t.timings, n, Get(t.timings, n).GetOr(0) + d)), [])
  }

  /** A stage is timed and left whether it raises or not; the first to raise is the failed one. */
  function Closed(t: Tape, name: string, started: int): Tape {
    t.(stack := if t.stack == [] then [] else t.stack[..|t.stack| - 1],
       timings := Put(t.timings, name, Get(t.timings, name).GetOr(0) + (t.clock - started)),
       failedStage := if t.raising && t.failedStage.None? then Some(name) else t.failedStage)
  }

  function Size(b: Block): nat {
    match b
    case Then(p, q) => 1 + Size(p) + Size(q)
    case Stage(_, p) => 2 + Size(p)
    case Catch(p, h) => 2 + Size(p) + Size(h)
    case _ => 1
  }

  function Load(todo: seq<Task>): nat {
    if todo == [] then 0 else
      (match todo[0] case Do(b) => Size(b) case Close(_, _) => 1 case Handle(h) => 1 + Size(h)) + Load(todo[1..])
  }

  lemma {:induction false} TickLess(t: Tape, todo: seq<Task>)
    requires todo != []
    ensures Load(Tick(t, todo[0]).1 + todo[1..]) < Load(todo)
  {
    var more, rest := Tick(t, todo[0]).1, todo[1..];
    if more == [] {
      assert more + rest == rest;
    } else {
      assert (more + rest)[1..] == more[1..] + rest;
      if |more| == 1 { assert more[1..] + rest == rest; } else { assert (more[1..] + rest)[1..] == rest; }
    }
  }

  function Play(t: Tape, todo: seq<Task>): Tape
    decreases Load(todo)
  {
    if todo == [] then t else
      TickLess(t, todo);
      Play(Tick(t, todo[0]).0, Tick(t, todo[0]).1 + todo[1..])
  }

  /** The tape `b` leaves: the clock, the timings and the failed stage are those of its runs and marks. */
  function After(t: Tape, b: Block): Tape {
    Tape(t.clock + Elapsed(b), t.stack, AddAll(t.timings, Runs(b)), JudgeAll(t.failedStage, Marks(b)), Raises(b))
  }

  lemma {:induction false} PlayRaising(t: Tape, b: Block, rest: seq<Task>)
    requires t.raising
    ensures Play(t, [Do(b)] + rest) == Play(t, rest)
  {
    assert ([Do(b)] + rest)[1..] == rest;
    assert [] + rest == rest;
  }

  lemma {:induction false} PlayOne(t: Tape, task: Task, rest: seq<Task>)
    ensures Play(t, [task] + rest) == Play(Tick(t, task).0, Tick(t, task).1 + rest)
  {
    assert ([task] + rest)[1..] == rest;
  }

  /** Running `b` one step at a time, whatever comes after it, is what its meaning says:
      whether it raises, how long it takes, each run of a stage with its own time, and
      every mark on the failed stage. */
  lemma {:induction false} PlayIsRun(t: Tape, b: Block, rest: seq<Task>)
    requires !t.raising
    ensures Play(t, [Do(b)] + rest) == Play(After(t, b), rest)
    decreases b, 1
  {
    hide Play, Judge, Add;
    PlayOne(t, Do(b), rest);
    match b
    case Then(p, q) => PlayThen(t, p, q, rest);
    case Stage(n, p) => PlayStage(t, n, p, rest);
    case Catch(p, h) => PlayCatch(t, p, h, rest);
    case _ => PlaySimple(t, b, rest);
  }

  lemma {:induction false} PlaySimple(t: Tape, b: Block, rest: seq<Task>)
    requires !t.raising && !b.Then? && !b.Stage? && !b.Catch?
    ensures Play(Tick(t, Do(b)).0, Tick(t, Do(b)).1 + rest) == Play(After(t, b), rest)
  {
    hide Play;
    assert [] + rest == rest;
    match b
    case Fail(n) => JudgeAllOne(t.failedStage, Hit(n));
    case Forgive(o) => JudgeAllOne(t.failedStage, Pardon(o));
    case Record(n, d) => AddAllJoin(t.timings, [], [(n, d)]);
    case _ =>
  }

  lemma {:induction false} PlayThen(t: Tape, p: Block, q: Block, rest: seq<Task>)
    requires !t.raising
    ensures Play(t, [Do(p), Do(q)] + rest) == Play(After(t, Then(p, q)), rest)
    decreases Then(p, q), 0
  {
    hide Play, After;
    assert [Do(p), Do(q)] + rest == [Do(p)] + ([Do(q)] + rest);
    PlayIsRun(t, p, [Do(q)] + rest);
    AfterRaises(t, p);
    AfterThen(t, p, q);
    if Raises(p) {
      PlayRaising(After(t, p), q, rest);
    } else {
      PlayIsRun(After(t, p), q, rest);
    }
  }

  lemma {:induction false} PlayStage(t: Tape, name: string, p: Block, rest: seq<Task>)
    requires !t.raising
    ensures var inside := t.(stack := t.stack + [name]);
      Play(inside, [Do(p), Close(name, t.clock)] + rest) == Play(After(t, Stage(name, p)), rest)
    decreases Stage(name, p), 0
  {
    hide Play, After, Tick;
    var inside, close := t.(stack := t.stack + [name]), Close(name, t.clock);
    assert [Do(p), close] + rest == [Do(p)] + ([close] + rest);
    PlayIsRun(inside, p, [close] + rest);
    PlayOne(After(inside, p), close, rest);
    AfterStage(t, name, p);
    assert [] + rest == rest;
  }

  lemma {:induction false} PlayCatch(t: Tape, p: Block, h: Block, rest: seq<Task>)
    requires !t.raising
    ensures Play(t, [Do(p), Handle(h)] + rest) == Play(After(t, Catch(p, h)), rest)
    decreases Catch(p, h), 0
  {
    hide Play, After;
    assert [Do(p), Handle(h)] + rest == [Do(p)] + ([Handle(h)] + rest);
    PlayIsRun(t, p, [Handle(h)] + rest);
    PlayOne(After(t, p), Handle(h), rest);
    assert [] + rest == rest;
    AfterRaises(t, p);
    AfterCatch(t, p, h);
    if Raises(p) { PlayIsRun(After(t, p).(raising := false), h, rest); }
  }

  lemma {:induction false} AfterRaises(t: Tape, b: Block)
    ensures After(t, b).raising == Raises(b)
  {}

  /** What blocks that run one after the other leave. */
  lemma {:induction false} AfterThen(t: Tape, p: Block, q: Block)
    ensures After(t, Then(p, q)) == if Raises(p) then After(t, p) else After(After(t, p), q)
  {
    hide Judge, Add, JudgeAll, AddAll;
    if Raises(p) {
      assert Runs(Then(p, q)) == Runs(p) && Marks(Then(p, q)) == Marks(p);
    } else {
      AddAllJoin(t.timings, Runs(p), Runs(q));
      JudgeAllJoin(t.failedStage, Marks(p), Marks(q));
    }
  }

  lemma {:induction false} AfterStage(t: Tape, name: string, p: Block)
    ensures Tick(After(t.(stack := t.stack + [name]), p), Close(name, t.clock)) == (After(t, Stage(name, p)), [])
  {
    hide JudgeAll, AddAll;
    assert (t.stack + [name])[..|t.stack|] == t.stack;
    AddAllJoin(t.timings, Runs(p), [(name, Elapsed(p))]);
    JudgeAllJoin(t.failedStage, Marks(p), if Raises(p) then [Hit(name)] else []);
    if !Raises(p) { assert Marks(p) + [] == Marks(p); }
  }

  lemma {:induction false} AfterCatch(t: Tape, p: Block, h: Block)
    ensures After(t, Catch(p, h)) == if Raises(p) then After(After(t, p).(raising := false), h) else After(t, p)
  {
    hide Judge, Add, JudgeAll, AddAll;
    if Raises(p) {
      AddAllJoin(t.timings, Runs(p), Runs(h));
      JudgeAllJoin(t.failedStage, Marks(p), Marks(h));
    } else {
      assert Runs(Catch(p, h)) == Runs(p) && Marks(Catch(p, h)) == Marks(p);
    }
  }

  /** What `SessionTrace.Run` is proved to leave is what the machine leaves. */
  lemma {:induction false} RunStepByStep(t: Tape, b: Block)
    requires !t.raising
    ensures Play(t, [Do(b)]) ==
      Tape(t.clock + Elapsed(b), t.stack, AddAll(t.timings, Runs(b)), JudgeAll(t.failedStage, Marks(b)), Raises(b))
  {
    assert [Do(b)] + [] == [Do(b)];
    PlayIsRun(t, b, []);
  }
}
