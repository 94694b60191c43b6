/** The fixed stage vocabulary, and where a failure is said to have hit. */
module Stages {
  import opened Ble

  type StageMap = map<string, string>

  const PRIMARY: set<string> := {"unreachable", "connect", "session", "auth", "transfer", "finish", "disconnect"}

  /** An exception as the reports read it. `final` is `retryable = False`;
      `timedOut` marks the error of an attempt whose bound fired. */
  datatype Exc = Exc(text: string, stage: Option<string>, detail: Option<string>, final: bool, timedOut: bool)

  function PrimaryOf(name: Option<string>, stages: StageMap): Option<string> {
    match name
    case None => None
    case Some(n) => if n in PRIMARY then name else if n in stages then Some(stages[n]) else name
  }

  /** A primary name is its own stage, whatever the map makes of it; the map has its
      say on every other name, and a name it does not know comes through. */
  lemma {:induction false} PrimaryNames(name: string, stages: StageMap)
    ensures PrimaryOf(None, stages) == None
    ensures name in {"unreachable", "connect", "session", "auth", "transfer", "finish", "disconnect"} ==>
      PrimaryOf(Some(name), stages) == Some(name)
    ensures name !in PRIMARY && name in stages ==> PrimaryOf(Some(name), stages) == Some(stages[name])
    ensures name !in PRIMARY && name !in stages ==> PrimaryOf(Some(name), stages) == Some(name)
  {}

  /** What a report says beside the primary stage: the recorded name, unless it is that stage. */
  function DetailOf(failed: Option<string>, stages: StageMap): Option<string> {
    if failed == PrimaryOf(failed, stages) then None else failed
  }

  /** The stage and detail blamed for `exc`: those recorded, with the error's own filling the gaps. */
  function Failure(failed: Option<string>, stages: StageMap, exc: Option<Exc>): (Option<string>, Option<string>) {
    if exc.None? then (None, None) else
      var stage, detail := PrimaryOf(failed, stages), DetailOf(failed, stages);
      if stage.None? then (exc.value.stage, exc.value.detail)
      else if detail.None? && exc.value.stage == stage then (stage, exc.value.detail)
      else (stage, detail)
  }

  /** A recorded stage is the authority, and its own name the detail wherever it says
      more; the error's detail counts only for that very stage or where none was recorded. */
  lemma {:induction false} FailureTells(failed: Option<string>, stages: StageMap, exc: Exc)
    ensures Failure(failed, stages, None) == (None, None)
    ensures var (stage, detail) := Failure(failed, stages, Some(exc));
      if failed.None? then (stage, detail) == (exc.stage, exc.detail) else
        && stage == PrimaryOf(failed, stages)
        && (failed != stage ==> detail == failed)
        && (failed == stage ==> detail == if exc.stage == stage then exc.detail else None)
  {}

  /** The error of an attempt whose bound fired, read from the attempt's trace. */
  function TimedOut(failed: Option<string>, stages: StageMap): Exc {
    Exc("Attempt timed out", PrimaryOf(failed, stages), DetailOf(failed, stages), false, true)
  }

  /** Replacing the error by the timeout moves no blame: stage and detail are the
      trace's, and they survive on the error alone when the trace is lost. */
  lemma {:induction false} TimeoutKeepsTheBlame(failed: Option<string>, stages: StageMap)
    ensures Failure(failed, stages, Some(TimedOut(failed, stages)))
         == (PrimaryOf(failed, stages), DetailOf(failed, stages))
         == Failure(None, map[], Some(TimedOut(failed, stages)))
  {}
}
