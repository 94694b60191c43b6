/** What a report says under each of its keys, read off what it was built from. */
module ReportKeys {
  import opened Ble
  import opened KeyOrder
  import opened OrderedMap
  import opened Reports
  import opened Stages

  // ── The report's own keys ────────────────────────────────────────────────

  /** The report has this under `key`, unless facts or notes set the key themselves. */
  predicate Tells(v: Input, key: string, value: Option<Value>) {
    Free(v.facts, v.notes, key) ==> Get(Report(v), key) == value
  }

  lemma {:induction false} OwnKeyByKey(v: Input)
    ensures Tells(v, OPERATION, Some(Text(v.operation)))
    ensures Tells(v, SUCCESS, Some(Flag(v.exc.None? && v.skipped.None?)))
    ensures Tells(v, SKIPPED, v.skipped)
    ensures Tells(v, ERROR, if v.exc.Some? then Some(Text(v.exc.value.text)) else None)
    ensures Tells(v, TIMED_OUT, if v.exc.Some? && v.exc.value.timedOut then Some(Flag(true)) else None)
    ensures Tells(v, ATTEMPT, if v.attempt.Some? then Some(Number(v.attempt.value)) else None)
    ensures Tells(v, ATTEMPTS, if v.attempts.Some? then Some(Number(v.attempts.value)) else None)
    ensures Tells(v, RETRYING, if v.retrying then Some(Flag(true)) else None)
  {
    EachOwnKey(v);
    assert REPORT_KEYS[0] == OPERATION && REPORT_KEYS[1] == SUCCESS && REPORT_KEYS[2] == SKIPPED;
    assert REPORT_KEYS[3] == ERROR && REPORT_KEYS[8] == TIMED_OUT && REPORT_KEYS[9] == ATTEMPT;
    assert REPORT_KEYS[10] == ATTEMPTS && REPORT_KEYS[11] == RETRYING;
  }

  /** Stage, detail and cause are there for an error only. The library's own sentence
      stands for a fired bound, the device's for anything else it has a word on; the
      key goes with the library's sentence. */
  lemma {:induction false} BlameKeyByKey(v: Input)
    ensures v.exc.None? ==>
      && Tells(v, FAILED_STAGE, None) && Tells(v, FAILED_DETAIL, None)
      && Tells(v, LIKELY_CAUSE, None) && Tells(v, LIKELY_CAUSE_KEY, None)
    ensures v.exc.Some? ==>
      var blame := Failure(v.failed, v.stages, v.exc);
      && Tells(v, FAILED_STAGE, if blame.0.Some? then Some(Text(blame.0.value)) else None)
      && Tells(v, FAILED_DETAIL, if blame.1.Some? then Some(Text(blame.1.value)) else None)
    ensures v.exc.Some? && v.cause.Some? && !(v.exc.value.timedOut && v.generic.Some?) ==>
      Tells(v, LIKELY_CAUSE, Some(Text(v.cause.value))) && Tells(v, LIKELY_CAUSE_KEY, None)
    ensures v.exc.Some? && v.generic.Some? && (v.cause.None? || v.exc.value.timedOut) ==>
      && Tells(v, LIKELY_CAUSE, Some(Text(v.generic.value.0)))
      && Tells(v, LIKELY_CAUSE_KEY, Some(Text(v.generic.value.1)))
    ensures v.exc.Some? && v.generic.None? && v.cause.None? ==>
      Tells(v, LIKELY_CAUSE, None) && Tells(v, LIKELY_CAUSE_KEY, None)
  {
    EachOwnKey(v);
    assert REPORT_KEYS[4] == FAILED_STAGE && REPORT_KEYS[5] == FAILED_DETAIL;
    assert REPORT_KEYS[6] == LIKELY_CAUSE && REPORT_KEYS[7] == LIKELY_CAUSE_KEY;
  }

  lemma {:induction false} EachOwnKey(v: Input)
    ensures forall i :: 0 <= i < |REPORT_KEYS| ==> Tells(v, REPORT_KEYS[i], OwnValues(v)[i])
  {
    forall i | 0 <= i < |REPORT_KEYS| ensures Tells(v, REPORT_KEYS[i], OwnValues(v)[i]) {
      if Free(v.facts, v.notes, REPORT_KEYS[i]) { ReportHolds(v, i); }
    }
  }

  /** How a report counts, and that its `success` says so. */
  lemma {:induction false} CountsByKind(v: Input)
    requires Harmless(v.facts, v.notes)
    ensures Classify(Report(v)) ==
      if v.skipped.Some? then Kind.Skipped
      else if v.exc.None? then Kind.Ok
      else if v.retrying then Kind.Retried
      else Kind.Failed
    ensures Free(v.facts, v.notes, SUCCESS) ==>
      (Get(Report(v), SUCCESS) == Some(Flag(true)) <==> Classify(Report(v)) == Kind.Ok)
  {
    HarmlessCounts(v);
    OwnKeyByKey(v);
  }

  // ── Everything else ──────────────────────────────────────────────────────

  /** The last entry for a key is the one that counts. */
  lemma {:induction false} LastOf(d: Dict<Value>, items: Dict<Value>, k: string)
    ensures Get(PutAll(d, items), k) == if k in Keys(items) then Some(LastSet(items, k)) else Get(d, k)
  {
    if k in Keys(items) { PutAllLast(d, items, k); } else { PutAllUntouched(d, items, k); }
  }

  /** Notes have the last word on any key, stage timings come next, then the facts. */
  lemma {:induction false} ExtrasPublished(v: Input, k: string)
    ensures k in Keys(v.notes) ==> Get(Report(v), k) == Some(LastSet(v.notes, k))
    ensures k !in Keys(v.notes) && k in Keys(StageEntries(v.timings)) ==>
      Get(Report(v), k) == Some(LastSet(StageEntries(v.timings), k))
    ensures k !in Keys(v.notes) && k !in Keys(StageEntries(v.timings)) && k in Keys(v.facts) && k !in FACT_KEYS ==>
      Get(Report(v), k) == Some(LastSet(v.facts, k))
    ensures k !in Keys(v.notes) && k in FACT_KEYS ==> Get(Report(v), k) == Get(v.facts, k)
  {
    hide PutAll, Keys;
    var head, others, stages := Head(v), OtherFacts(v.facts), StageEntries(v.timings);
    JoinThree(head, others, stages, v.notes);
    LastOf(PutAll(PutAll(PutAll([], head), others), stages), v.notes, k);
    LastOf(PutAll(PutAll([], head), others), stages, k);
    LastOf(PutAll([], head), others, k);
    if k in FACT_KEYS {
      RadioInHead(v, k);
      OtherFactsLack(v.facts, k);
      StagesLack(v, k);
    } else {
      OtherFactsHave(v.facts, k);
      if k in Keys(v.facts) { OtherFactsLast(v.facts, k); }
    }
  }

  lemma {:induction false} OtherFactsLast(facts: Dict<Value>, k: string)
    requires k !in FACT_KEYS && k in Keys(facts) && k in Keys(OtherFacts(facts))
    ensures LastSet(OtherFacts(facts), k) == LastSet(facts, k)
  {
    var init, last := facts[..|facts| - 1], facts[|facts| - 1];
    var others := OtherFacts(init);
    if last.0 == k {
      assert OtherFacts(facts)[..|others|] == others;
    } else {
      assert Keys(facts) == Keys(init) + [last.0];
      OtherFactsHave(init, k);
      OtherFactsLast(init, k);
      if last.0 in FACT_KEYS {
        assert OtherFacts(facts) == others + [] == others;
      } else {
        assert OtherFacts(facts) == others + [last];
        assert (others + [last])[..|others|] == others;
      }
    }
  }

  lemma {:induction false} RadioInHead(v: Input, k: string)
    requires k in FACT_KEYS
    ensures Get(PutAll([], Head(v)), k) == Get(v.facts, k)
  {
    KeysDistinct();
    SplitDistinct(REPORT_KEYS, FACT_KEYS);
    var j :| 0 <= j < |FACT_KEYS| && FACT_KEYS[j] == k;
    SecondListDecides(REPORT_KEYS, OwnValues(v), FACT_KEYS, RadioValues(v.facts), j);
  }

  lemma {:induction false} SecondListDecides(
      o1: seq<string>, v1: seq<Option<Value>>, o2: seq<string>, v2: seq<Option<Value>>, j: nat)
    requires |o1| == |v1| && |o2| == |v2| && j < |o2| && Distinct(o1 + o2) && Distinct(o2)
    ensures Get(PutAll([], Picked(o1, v1) + Picked(o2, v2)), o2[j]) == v2[j]
  {
    var first := PutAll([], Picked(o1, v1));
    PutAllJoin([], Picked(o1, v1), Picked(o2, v2));
    PutFirstPicked(first, o2, v2, |o2|);
    Whole(o2, v2);
    PutFirstGet(first, o2, v2, |o2|, j);
    if o2[j] in Keys(Picked(o1, v1)) {
      var i := PickedIn(o1, v1, o2[j]);
      Apart(o1, o2, i, j);
    }
    PutAllUntouched([], Picked(o1, v1), o2[j]);
  }

  lemma {:induction false} PutFirstGet(
      before: Dict<Value>, order: seq<string>, values: seq<Option<Value>>, n: nat, i: nat)
    requires n <= |order| == |values| && i < |order| && Distinct(order)
    ensures Get(PutFirst(before, order, values, n), order[i]) ==
      if i < n && values[i].Some? then values[i] else Get(before, order[i])
  {
    if n > 0 {
      PutFirstGet(before, order, values, n - 1, i);
      if values[n - 1].Some? {
        PutGet(PutFirst(before, order, values, n - 1), order[n - 1], values[n - 1].value, order[i]);
      }
    }
  }

  /** Each stage's seconds are there under its name, unless the notes say otherwise. */
  lemma {:induction false} TimingsPublished(v: Input, i: nat)
    requires i < |v.timings| && Distinct(Keys(v.timings)) && v.timings[i].0 + "_s" !in Keys(v.notes)
    ensures Get(Report(v), v.timings[i].0 + "_s") == Some(Number(v.timings[i].1))
  {
    ExtrasPublished(v, v.timings[i].0 + "_s");
    StageEntry(v.timings, i);
  }

  lemma {:induction false} StageEntry(timings: Dict<int>, i: nat)
    requires i < |timings| && Distinct(Keys(timings))
    ensures var k := timings[i].0 + "_s";
      k in Keys(StageEntries(timings)) && LastSet(StageEntries(timings), k) == Number(timings[i].1)
  {
    var n, k, entries := |timings| - 1, timings[i].0 + "_s", StageEntries(timings);
    assert Keys(entries)[i] == k;
    assert entries[..n] == StageEntries(timings[..n]);
    if i < n {
      assert Keys(timings)[i] != Keys(timings)[n];
      SameStage(timings[i].0, timings[n].0);
      DistinctInit(timings);
      StageEntry(timings[..n], i);
    }
  }

  lemma {:induction false} DistinctInit(timings: Dict<int>)
    requires timings != [] && Distinct(Keys(timings))
    ensures Distinct(Keys(timings[..|timings| - 1]))
  {
    assert Keys(timings[..|timings| - 1]) == Keys(timings)[..|timings| - 1];
  }

  lemma {:induction false} SameStage(a: string, b: string)
    ensures a + "_s" == b + "_s" ==> a == b
  {
    if a + "_s" == b + "_s" {
      assert |a| == |a + "_s"| - 2 == |b + "_s"| - 2 == |b|;
      assert a == (a + "_s")[..|a|] == (b + "_s")[..|b|] == b;
    }
  }

  // ── The fallback ─────────────────────────────────────────────────────────

  /** The fallback says what cannot fail to be said, and nothing else. */
  lemma {:induction false} FallbackKeyByKey(v: Input)
    ensures var report, blame := Fallback(v), Failure(v.failed, v.stages, v.exc);
      && Get(report, OPERATION) == Some(Text(v.operation))
      && Get(report, SUCCESS) == Some(Flag(v.exc.None? && v.skipped.None?))
      && Get(report, SKIPPED) == v.skipped
      && Get(report, ERROR) == (if v.exc.Some? then Some(Text(v.exc.value.text)) else None)
      && Get(report, FAILED_STAGE) == (if blame.0.Some? then Some(Text(blame.0.value)) else None)
      && Get(report, FAILED_DETAIL) == (if blame.1.Some? then Some(Text(blame.1.value)) else None)
      && Get(report, ATTEMPT) == (if v.attempt.Some? then Some(Number(v.attempt.value)) else None)
      && Get(report, RETRYING) == (if v.retrying then Some(Flag(true)) else None)
      && Get(report, LIKELY_CAUSE) == Get(report, LIKELY_CAUSE_KEY) == None
      && Get(report, TIMED_OUT) == Get(report, ATTEMPTS) == None
  {
    EachFallbackKey(v);
    SameBlame(v);
    assert REPORT_KEYS[0] == OPERATION && REPORT_KEYS[1] == SUCCESS && REPORT_KEYS[2] == SKIPPED;
    assert REPORT_KEYS[3] == ERROR && REPORT_KEYS[4] == FAILED_STAGE && REPORT_KEYS[5] == FAILED_DETAIL;
    assert REPORT_KEYS[6] == LIKELY_CAUSE && REPORT_KEYS[7] == LIKELY_CAUSE_KEY && REPORT_KEYS[8] == TIMED_OUT;
    assert REPORT_KEYS[9] == ATTEMPT && REPORT_KEYS[10] == ATTEMPTS && REPORT_KEYS[11] == RETRYING;
  }

  lemma {:induction false} EachFallbackKey(v: Input)
    ensures forall i :: 0 <= i < |REPORT_KEYS| ==> Get(Fallback(v), REPORT_KEYS[i]) == OwnValues(Reduced(v))[i]
  {
    KeysDistinct();
    SplitDistinct(REPORT_KEYS, FACT_KEYS);
    forall i | 0 <= i < |REPORT_KEYS| ensures Get(Fallback(v), REPORT_KEYS[i]) == OwnValues(Reduced(v))[i] {
      PickedGet(REPORT_KEYS, OwnValues(Reduced(v)), |REPORT_KEYS|, i);
    }
  }
}
