/** The blame from the stage that failed to the report that names it: an attempt
    that is one session, run under a bound, and published. */
module Attribution {
  import opened Ble
  import opened OrderedMap
  import opened Stages
  import opened Reports
  import Accounting
  import Attempts
  import Session
  import Trace

  /** Attempt `number` ran a session that came out as `exit` on the attempt's fresh trace. */
  predicate RanSession(p: Attempts.Setup, number: nat, exit: Session.Exit, block: Trace.Block) {
    && p.script(number).guard == Attempts.Passes
    && p.script(number).failed == Session.Attributed(None, exit, block)
    && Session.Consistent(exit, block)
  }

  /** The caller's facts and notes use none of the report's own keys. */
  predicate LeavesAlone(c: Accounting.Caller) {
    Avoids(c.facts, REPORT_KEYS) && Avoids(c.notes, REPORT_KEYS)
  }

  function Published(p: Attempts.Setup, number: nat, c: Accounting.Caller): Dict<Value> {
    Accounting.ReportAttempt(Attempts.OutcomeOf(p, number), p.stages, c)
  }

  /** A failed attempt is published under the primary stage its session blames,
      whether its own error got out or the bound fired and replaced it; the
      stage and detail of a fired bound are the trace's alone. */
  lemma {:induction false} PublishedBlame(
      p: Attempts.Setup, number: nat, exit: Session.Exit, block: Trace.Block, c: Accounting.Caller)
    requires RanSession(p, number, exit, block) && LeavesAlone(c)
    requires Attempts.OutcomeOf(p, number).error.Some? && Session.Blamed(exit, block).Some?
    ensures var report, blamed := Published(p, number, c), Session.Blamed(exit, block);
      && Get(report, FAILED_STAGE) == AsText(PrimaryOf(blamed, p.stages))
      && (Attempts.TimesOut(p.script(number)) ==>
            && Get(report, FAILED_DETAIL) == AsText(DetailOf(blamed, p.stages))
            && Get(report, TIMED_OUT) == Some(Flag(true)))
  {
    hide Report, Session.Attributed, Session.Blamed;
    Session.SessionBlame(exit, block);
    var o := Attempts.OutcomeOf(p, number);
    var v := Accounting.AttemptInput(o, p.stages, c);
    ReportHolds(v, 4);
    ReportHolds(v, 5);
    ReportHolds(v, 8);
    TimeoutKeepsTheBlame(o.failed, p.stages);
  }

  /** A link that never reached the block is a `connect` failure in every report,
      whatever the device calls its stages. */
  lemma {:induction false} UnreachedBlockIsConnect(
      p: Attempts.Setup, number: nat, exit: Session.Exit, block: Trace.Block, c: Accounting.Caller)
    requires RanSession(p, number, exit, block) && LeavesAlone(c)
    requires Attempts.OutcomeOf(p, number).error.Some? && exit.yielded.None?
    ensures Get(Published(p, number, c), FAILED_STAGE) == Some(Text(Session.CONNECT))
  {
    PublishedBlame(p, number, exit, block, c);
  }
}
