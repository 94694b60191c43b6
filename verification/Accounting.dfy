/** The slots reports are filed in, and what they count over any interleaving of runs. */
module Accounting {
  import opened Ble
  import opened OrderedMap
  import opened Stages
  import opened ReportKeys
  import opened Reports
  import Attempts

  type Published = Dict<Value>

  datatype Slots = Slots(
    last: Option<Published>,
    lastFailure: Option<Published>,
    lastRetry: Option<Published>,
    failures: nat,
    lastFailureAt: Option<int>,
    byOperation: map<string, Published>,
    lastKind: Option<Kind>)

  const EMPTY := Slots(None, None, None, 0, None, map[], None)

  /** The operation a report names, if it names one. */
  function OperationOf(report: Published): Option<string> {
    var found := Get(report, OPERATION);
    if found.Some? && found.value.Text? then Some(found.value.text) else None
  }

  /** The slots after `report` was filed at time `now`. */
  function File(s: Slots, report: Published, now: int): Slots {
    var kind, operation := Classify(report), OperationOf(report);
    var filed := s.(last := Some(report), lastKind := Some(kind),
                    byOperation := if operation.Some? then s.byOperation[operation.value := report] else s.byOperation);
    if kind == Failed then
      filed.(lastFailure := Some(report), failures := s.failures + 1, lastFailureAt := Some(now))
    else if kind == Retried then filed.(lastRetry := Some(report))
    else filed
  }

  function Lookup(m: map<string, Published>, operation: string): Option<Published> {
    if operation in m then Some(m[operation]) else None
  }

  /** `filings` is every report filed since the slots were last cleared, and when. */
  class SessionReports {
    var last: Option<Published>
    var lastFailure: Option<Published>
    var lastRetry: Option<Published>
    var failures: nat
    var lastFailureAt: Option<int>
    var byOperation: map<string, Published>
    var lastKind: Option<Kind>
    ghost var filings: seq<Filing>

    constructor ()
      ensures Valid() && filings == []
    {
      last, lastFailure, lastRetry, failures := None, None, None, 0;
      lastFailureAt, byOperation, lastKind, filings := None, map[], None, [];
    }

    function View(): Slots
      reads this
    {
      Slots(last, lastFailure, lastRetry, failures, lastFailureAt, byOperation, lastKind)
    }

    ghost predicate Valid()
      reads this
    {
      View() == FileAll(filings)
    }

    method Record(report: Published, now: int) returns (filed: Published)
      requires Valid()
      modifies this
      ensures Valid() && filings == old(filings) + [(report, now)]
      ensures View() == File(old(View()), report, now) && filed == report
    {
      var kind := Classify(report);
      lastKind := Some(kind);
      last := Some(report);
      var operation := OperationOf(report);
      if operation.Some? {
        byOperation := byOperation[operation.value := report];
      }
      if kind == Failed {
        lastFailure := Some(report);
        failures := failures + 1;
        lastFailureAt := Some(now);
      } else if kind == Retried {
        lastRetry := Some(report);
      }
      filings := filings + [(report, now)];
      assert filings[..|filings| - 1] == old(filings);
      return report;
    }

    /** The latest report filed that names `operation`, whatever its kind. */
    method Of(operation: string) returns (r: Option<Published>)
      requires Valid()
      ensures r == Paper(Latest(Naming(filings, operation)))
    {
      r := if operation in byOperation then Some(byOperation[operation]) else None;
      LatestOfEachOperation(filings, operation);
    }

    method Clear()
      modifies this
      ensures Valid() && filings == []
    {
      last, lastFailure, lastRetry, failures := None, None, None, 0;
      lastFailureAt, byOperation, lastKind, filings := None, map[], None, [];
    }
  }

  // ── What the slots hold after any sequence of reports ────────────────────

  /** A report and when it was filed. */
  type Filing = (Published, int)

  function FileAll(rs: seq<Filing>): Slots {
    if rs == [] then EMPTY else File(FileAll(rs[..|rs| - 1]), rs[|rs| - 1].0, rs[|rs| - 1].1)
  }

  /** The filings of one kind, in order. */
  function OfKind(rs: seq<Filing>, kind: Kind): seq<Filing> {
    if rs == [] then [] else
      OfKind(rs[..|rs| - 1], kind) + (if Classify(rs[|rs| - 1].0) == kind then [rs[|rs| - 1]] else [])
  }

  function Latest(rs: seq<Filing>): Option<Filing> {
    if rs == [] then None else Some(rs[|rs| - 1])
  }

  function Paper(r: Option<Filing>): Option<Published> {
    if r.Some? then Some(r.value.0) else None
  }

  /** `failures` counts the final failures; the failure and retry slots hold the
      latest of their kind whatever was filed since, and the last kind is the
      latest report's. */
  lemma {:induction false} SlotsAfter(rs: seq<Filing>)
    ensures var s := FileAll(rs);
      && s.last == Paper(Latest(rs))
      && s.failures == |OfKind(rs, Failed)|
      && s.lastFailure == Paper(Latest(OfKind(rs, Failed)))
      && s.lastFailureAt == (if OfKind(rs, Failed) == [] then None else Some(Latest(OfKind(rs, Failed)).value.1))
      && s.lastRetry == Paper(Latest(OfKind(rs, Retried)))
      && s.lastKind == (if rs == [] then None else Some(Classify(rs[|rs| - 1].0)))
  {
    if rs != [] { SlotsAfter(rs[..|rs| - 1]); }
  }

  /** The filings that name an operation, in order. */
  function Naming(rs: seq<Filing>, operation: string): seq<Filing> {
    if rs == [] then [] else
      Naming(rs[..|rs| - 1], operation)
      + (if OperationOf(rs[|rs| - 1].0) == Some(operation) then [rs[|rs| - 1]] else [])
  }

  /** `of` finds the latest report of an operation, whatever its kind. */
  lemma {:induction false} LatestOfEachOperation(rs: seq<Filing>, operation: string)
    ensures Lookup(FileAll(rs).byOperation, operation) == Paper(Latest(Naming(rs, operation)))
  {
    if rs != [] { LatestOfEachOperation(rs[..|rs| - 1], operation); }
  }

  // ── Runs ─────────────────────────────────────────────────────────────────

  /** What the caller of `report_attempt` adds to an attempt. */
  datatype Caller = Caller(
    operation: string,
    facts: Dict<Value>,
    cause: Option<string>,
    generic: Option<(string, string)>,
    attempts: Option<int>,
    timings: Dict<int>,
    notes: Dict<Value>)

  /** What `report_attempt` passes on. */
  function AttemptInput(o: Attempts.Outcome, stages: StageMap, c: Caller): Input {
    Input(c.operation, o.failed, stages, c.timings, c.notes, o.error, AsText(o.skipped),
      c.facts, c.cause, c.generic, Some(o.number), c.attempts, o.retrying)
  }

  function ReportAttempt(o: Attempts.Outcome, stages: StageMap, c: Caller): Published {
    Report(AttemptInput(o, stages, c))
  }

  /** An attempt is published under the operation, the number, the error and the retry
      it had, and filed under its operation. */
  lemma {:induction false} AttemptPublished(o: Attempts.Outcome, stages: StageMap, c: Caller)
    requires Avoids(c.facts, REPORT_KEYS) && Avoids(c.notes, REPORT_KEYS)
    ensures var report := ReportAttempt(o, stages, c);
      && OperationOf(report) == Some(c.operation)
      && Get(report, ATTEMPT) == Some(Number(o.number)) && Get(report, ATTEMPTS) == AsNumber(c.attempts)
      && Get(report, SKIPPED) == (if o.skipped.Some? then Some(Text(o.skipped.value)) else None)
      && Get(report, ERROR) == (if o.error.Some? then Some(Text(o.error.value.text)) else None)
      && Get(report, RETRYING) == (if o.retrying then Some(Flag(true)) else None)
      && Get(report, SUCCESS) == Some(Flag(o.error.None? && o.skipped.None?))
  {
    hide Report;
    OwnKeyByKey(AttemptInput(o, stages, c));
    OwnKeysListed();
  }

  lemma {:induction false} OwnKeysListed()
    ensures OPERATION in REPORT_KEYS && ATTEMPT in REPORT_KEYS && ATTEMPTS in REPORT_KEYS && SKIPPED in REPORT_KEYS
    ensures ERROR in REPORT_KEYS && RETRYING in REPORT_KEYS && SUCCESS in REPORT_KEYS
  {
    assert REPORT_KEYS[0] == OPERATION && REPORT_KEYS[1] == SUCCESS && REPORT_KEYS[2] == SKIPPED;
    assert REPORT_KEYS[3] == ERROR && REPORT_KEYS[9] == ATTEMPT && REPORT_KEYS[10] == ATTEMPTS;
    assert REPORT_KEYS[11] == RETRYING;
  }

  predicate KeepsClear(c: Caller) {
    Harmless(c.facts, c.notes)
  }

  /** How an attempt of a run counts. */
  function KindOfAttempt(o: Attempts.Outcome): Kind {
    KindOf(o.error, AsText(o.skipped), o.retrying)
  }

  /** What a run that came to its end handed to `on_attempt`. */
  predicate RunOf(p: Attempts.Setup, os: seq<Attempts.Outcome>) {
    && os != [] && |os| <= p.maxAttempts
    && (forall i :: 0 <= i < |os| ==> os[i] == Attempts.OutcomeOf(p, i + 1))
    && (forall i :: 0 <= i < |os| - 1 ==> os[i].retrying)
    && !os[|os| - 1].retrying
  }

  function Kinds(os: seq<Attempts.Outcome>): seq<Kind> {
    seq(|os|, i requires 0 <= i < |os| => KindOfAttempt(os[i]))
  }

  /** Every kind but the last is a retry. */
  predicate FinalIsLast(ks: seq<Kind>) {
    forall i :: 0 <= i < |ks| - 1 ==> ks[i] == Retried
  }

  predicate CompleteRun(ks: seq<Kind>) {
    ks != [] && ks[|ks| - 1] != Retried && FinalIsLast(ks)
  }

  /** A run's reports count as n - 1 retries and then one ok, failure or skip;
      its attempts are numbered from 1. */
  lemma {:induction false} RunCounts(p: Attempts.Setup, os: seq<Attempts.Outcome>)
    requires RunOf(p, os)
    ensures CompleteRun(Kinds(os))
    ensures forall i :: 0 <= i < |os| ==> os[i].number == i + 1
  {
    forall i | 0 <= i < |os| ensures (Kinds(os)[i] == Retried <==> os[i].retrying) && os[i].number == i + 1 {
      assert os[i] == Attempts.OutcomeOf(p, i + 1);
    }
  }

  /** A run that `RunAttempts` finished, seen by `on_attempt`. */
  lemma {:induction false} FinishedRun(
      p: Attempts.Setup, recorded: seq<Attempts.Attempt>, starts: seq<Attempts.Scratch>, os: seq<Attempts.Outcome>)
    requires Attempts.History(p, recorded, starts) && recorded != [] && |recorded| <= p.maxAttempts
    requires Attempts.WentOn(p, |recorded| - 1)
    requires Attempts.RoundEnd(p, |recorded|) == Attempts.Finished && !Attempts.GoesOn(p, |recorded|)
    requires |os| == |recorded| && forall i :: 0 <= i < |os| ==> os[i] == recorded[i].View()
    ensures RunOf(p, os)
  {
    forall i | 0 <= i < |os| ensures os[i] == Attempts.OutcomeOf(p, i + 1) {
      assert Attempts.HandedOver(p, recorded[i], i + 1, starts[i]);
    }
    forall i | 0 <= i < |os| - 1 ensures os[i].retrying {
      WentOnBefore(p, |recorded| - 1, i + 1);
      assert Attempts.GoesOn(p, i + 1);
    }
  }

  lemma {:induction false} WentOnBefore(p: Attempts.Setup, n: nat, i: nat)
    requires Attempts.WentOn(p, n) && 1 <= i <= n
    ensures Attempts.GoesOn(p, i)
  {
    if i < n { WentOnBefore(p, n - 1, i); }
  }

  /** One attempt filed by one of several runs. */
  datatype Filed = Filed(run: nat, outcome: Attempts.Outcome, stages: StageMap, caller: Caller, now: int)

  /** What run `run` filed, in order. */
  function OfRun(es: seq<Filed>, run: nat): seq<Attempts.Outcome> {
    if es == [] then [] else
      OfRun(es[..|es| - 1], run) + (if es[|es| - 1].run == run then [es[|es| - 1].outcome] else [])
  }

  /** The reports filed, in order. */
  function Filings(es: seq<Filed>): (rs: seq<Filing>)
    ensures |rs| == |es|
  {
    if es == [] then [] else
      var e := es[|es| - 1];
      Filings(es[..|es| - 1]) + [(ReportAttempt(e.outcome, e.stages, e.caller), e.now)]
  }

  /** The runs that have filed a final failure. */
  function FailedRuns(es: seq<Filed>, runs: nat): set<nat> {
    set r | 0 <= r < runs && Failed in Kinds(OfRun(es, r))
  }

  lemma {:induction false} FailedRunsCounted(es: seq<Filed>, runs: nat)
    requires forall e <- es :: e.run < runs && KeepsClear(e.caller)
    requires forall r :: 0 <= r < runs ==> FinalIsLast(Kinds(OfRun(es, r)))
    ensures FileAll(Filings(es)).failures == |FailedRuns(es, runs)|
  {
    if es == [] {
      assert FailedRuns(es, runs) == {};
    } else {
      var init, e := es[..|es| - 1], es[|es| - 1];
      forall r | 0 <= r < runs ensures FinalIsLast(Kinds(OfRun(init, r))) {
        EarlierKinds(es, r);
      }
      FailedRunsCounted(init, runs);
      CountsAs(e);
      assert Filings(es)[..|es| - 1] == Filings(init);
      FailedRunsStep(es, runs);
    }
  }

  /** One more filing adds its run to the failed ones exactly when it is a final failure. */
  lemma {:induction false} FailedRunsStep(es: seq<Filed>, runs: nat)
    requires es != [] && es[|es| - 1].run < runs && FinalIsLast(Kinds(OfRun(es, es[|es| - 1].run)))
    ensures var init, e := es[..|es| - 1], es[|es| - 1];
      && e.run !in (if KindOfAttempt(e.outcome) == Failed then FailedRuns(init, runs) else {})
      && FailedRuns(es, runs) == FailedRuns(init, runs) + if KindOfAttempt(e.outcome) == Failed then {e.run} else {}
  {
    var init, e := es[..|es| - 1], es[|es| - 1];
    EarlierKinds(es, e.run);
    forall r: nat | r != e.run ensures OfRun(es, r) == OfRun(init, r) {}
  }

  /** What a run had filed before the last filing. */
  lemma {:induction false} EarlierKinds(es: seq<Filed>, run: nat)
    requires es != [] && FinalIsLast(Kinds(OfRun(es, run)))
    ensures var init, e := Kinds(OfRun(es[..|es| - 1], run)), es[|es| - 1];
      && FinalIsLast(init)
      && (e.run == run ==> Kinds(OfRun(es, run)) == init + [KindOfAttempt(e.outcome)] && Failed !in init)
  {
    var all, init, e := Kinds(OfRun(es, run)), Kinds(OfRun(es[..|es| - 1], run)), es[|es| - 1];
    assert all == init + (if e.run == run then [KindOfAttempt(e.outcome)] else []);
    forall i | 0 <= i < |init| ensures i < |all| - 1 || e.run != run ==> init[i] == all[i] {}
    assert e.run == run ==> forall i :: 0 <= i < |init| ==> init[i] == all[i] == Retried;
  }

  lemma {:induction false} CountsAs(e: Filed)
    requires KeepsClear(e.caller)
    ensures Classify(ReportAttempt(e.outcome, e.stages, e.caller)) == KindOfAttempt(e.outcome)
  {
    HarmlessCounts(AttemptInput(e.outcome, e.stages, e.caller));
  }

  /** The last attempt of a run failed. */
  predicate EndedInFailure(os: seq<Attempts.Outcome>) {
    os != [] && os[|os| - 1].error.Some?
  }

  function RunsEndedInFailure(es: seq<Filed>, runs: nat): set<nat> {
    set r | 0 <= r < runs && EndedInFailure(OfRun(es, r))
  }

  /** Over any interleaving of finished runs into one `SessionReports`, `failures`
      is the number of runs whose last attempt failed. */
  lemma {:induction false} FailuresAreFailedRuns(es: seq<Filed>, setups: seq<Attempts.Setup>)
    requires forall e <- es :: e.run < |setups| && KeepsClear(e.caller)
    requires forall r :: 0 <= r < |setups| ==> RunOf(setups[r], OfRun(es, r))
    ensures FileAll(Filings(es)).failures == |RunsEndedInFailure(es, |setups|)|
  {
    forall r | 0 <= r < |setups|
      ensures FinalIsLast(Kinds(OfRun(es, r)))
      ensures Failed in Kinds(OfRun(es, r)) <==> EndedInFailure(OfRun(es, r))
    {
      RunEnds(setups[r], OfRun(es, r));
    }
    FailedRunsCounted(es, |setups|);
    assert FailedRuns(es, |setups|) == RunsEndedInFailure(es, |setups|);
  }

  lemma {:induction false} RunEnds(p: Attempts.Setup, os: seq<Attempts.Outcome>)
    requires RunOf(p, os)
    ensures FinalIsLast(Kinds(os)) && (Failed in Kinds(os) <==> EndedInFailure(os))
  {
    RunCounts(p, os);
    assert os[|os| - 1] == Attempts.OutcomeOf(p, |os|);
    assert Kinds(os)[|os| - 1] == KindOfAttempt(os[|os| - 1]);
  }
}
