/** Session reports: which key holds what, how a report counts, and the fallback that cannot fail. */
module Reports {
  import opened Ble
  import opened KeyOrder
  import opened OrderedMap
  import opened Stages

  datatype Value = Text(text: string) | Number(number: int) | Flag(flag: bool) | Nothing

  const OPERATION := "operation"
  const SUCCESS := "success"
  const SKIPPED := "skipped"
  const ERROR := "error"
  const FAILED_STAGE := "failed_stage"
  const FAILED_DETAIL := "failed_detail"
  const LIKELY_CAUSE := "likely_cause"
  const LIKELY_CAUSE_KEY := "likely_cause_key"
  const TIMED_OUT := "timed_out"
  const ATTEMPT := "attempt"
  const ATTEMPTS := "attempts"
  const RETRYING := "retrying"

  const REPORT_KEYS: seq<string> := [
    OPERATION, SUCCESS, SKIPPED, ERROR, FAILED_STAGE, FAILED_DETAIL,
    LIKELY_CAUSE, LIKELY_CAUSE_KEY, TIMED_OUT, ATTEMPT, ATTEMPTS, RETRYING]

  const FACT_KEYS: seq<string> := ["via", "via_type", "rssi", "paths", "advertised_via", "via_unconfirmed"]

  /** Everything `build_report` reads. `cause` is what the device's callback says
      (None when there is none, it has nothing to say or it raised), `generic`
      the library's own sentence and its key. */
  datatype Input = Input(
    operation: string,
    failed: Option<string>,
    stages: StageMap,
    timings: Dict<int>,
    notes: Dict<Value>,
    exc: Option<Exc>,
    skipped: Option<Value>,
    facts: Dict<Value>,
    cause: Option<string>,
    generic: Option<(string, string)>,
    attempt: Option<int>,
    attempts: Option<int>,
    retrying: bool)

  // ── What each key holds ──────────────────────────────────────────────────

  /** The sentence and its key: the library's own for a fired bound, else the
      device's, else the library's. */
  function Likely(v: Input): (Option<string>, Option<string>) {
    var own := (if v.generic.Some? then Some(v.generic.value.0) else None,
                if v.generic.Some? then Some(v.generic.value.1) else None);
    if v.exc.None? then (None, None)
    else if v.cause.Some? && !(v.exc.value.timedOut && v.generic.Some?) then (v.cause, None)
    else own
  }

  function AsText(s: Option<string>): Option<Value> {
    if s.Some? then Some(Text(s.value)) else None
  }

  function AsNumber(n: Option<int>): Option<Value> {
    if n.Some? then Some(Number(n.value)) else None
  }

  /** What each of the report's own keys holds. */
  function OwnValues(v: Input): (r: seq<Option<Value>>)
    ensures |r| == |REPORT_KEYS|
  {
    [ Some(Text(v.operation)),
      Some(Flag(v.exc.None? && v.skipped.None?)),
      v.skipped,
      if v.exc.Some? then Some(Text(v.exc.value.text)) else None,
      AsText(Failure(v.failed, v.stages, v.exc).0),
      AsText(Failure(v.failed, v.stages, v.exc).1),
      AsText(Likely(v).0),
      AsText(Likely(v).1),
      if v.exc.Some? && v.exc.value.timedOut then Some(Flag(true)) else None,
      AsNumber(v.attempt),
      AsNumber(v.attempts),
      if v.retrying then Some(Flag(true)) else None ]
  }

  function RadioValues(facts: Dict<Value>): (r: seq<Option<Value>>)
    ensures |r| == |FACT_KEYS|
  {
    seq(|FACT_KEYS|, i requires 0 <= i < |FACT_KEYS| => Get(facts, FACT_KEYS[i]))
  }

  function Entry(key: string, value: Option<Value>): Dict<Value> {
    if value.Some? then [(key, value.value)] else []
  }

  /** The keys of `order` that have a value, with it, in order. */
  function Picked(order: seq<string>, values: seq<Option<Value>>): Dict<Value>
    requires |order| == |values|
  {
    if order == [] then [] else
      var n := |order| - 1;
      Picked(order[..n], values[..n]) + Entry(order[n], values[n])
  }

  function OtherFacts(facts: Dict<Value>): Dict<Value> {
    if facts == [] then [] else
      OtherFacts(facts[..|facts| - 1])
      + (if facts[|facts| - 1].0 in FACT_KEYS then [] else [facts[|facts| - 1]])
  }

  function StageEntries(timings: Dict<int>): Dict<Value> {
    seq(|timings|, i requires 0 <= i < |timings| => (timings[i].0 + "_s", Number(timings[i].1)))
  }

  /** The own and radio keys present, in order. */
  function Head(v: Input): Dict<Value> {
    Picked(REPORT_KEYS, OwnValues(v)) + Picked(FACT_KEYS, RadioValues(v.facts))
  }

  /** What the caller and the trace add after them. */
  function Extras(v: Input): Dict<Value> {
    OtherFacts(v.facts) + StageEntries(v.timings) + v.notes
  }

  /** The report, entry by entry. */
  function Entries(v: Input): Dict<Value> {
    Head(v) + Extras(v)
  }

  function Report(v: Input): Dict<Value> {
    PutAll([], Entries(v))
  }

  // ── build_report ─────────────────────────────────────────────────────────

  /** `before` with the first `n` keys of `order` that have a value. */
  function PutFirst(before: Dict<Value>, order: seq<string>, values: seq<Option<Value>>, n: nat): Dict<Value>
    requires n <= |order| == |values|
  {
    if n == 0 then before else
      var r := PutFirst(before, order, values, n - 1);
      if values[n - 1].Some? then Put(r, order[n - 1], values[n - 1].value) else r
  }

  lemma {:induction false} PutFirstPicked(before: Dict<Value>, order: seq<string>, values: seq<Option<Value>>, n: nat)
    requires n <= |order| == |values|
    ensures PutFirst(before, order, values, n) == PutAll(before, Picked(order[..n], values[..n]))
  {
    if n > 0 {
      PutFirstPicked(before, order, values, n - 1);
      assert order[..n][..n - 1] == order[..n - 1] && values[..n][..n - 1] == values[..n - 1];
      PutOne(before, Picked(order[..n - 1], values[..n - 1]), Entry(order[n - 1], values[n - 1]));
    }
  }

  lemma {:induction false} PutOne(before: Dict<Value>, done: Dict<Value>, entry: Dict<Value>)
    requires |entry| <= 1
    ensures PutAll(before, done + entry) ==
      if entry == [] then PutAll(before, done) else Put(PutAll(before, done), entry[0].0, entry[0].1)
  {
    PutAllJoin(before, done, entry);
    if entry != [] { assert entry[..0] == []; }
  }

  /** The report once the first `n` of its own keys have been dealt with. */
  function OwnReport(v: Input, n: nat): Dict<Value>
    requires n <= |REPORT_KEYS|
  {
    PutFirst([], REPORT_KEYS, OwnValues(v), n)
  }

  lemma {:induction false} OwnStep(v: Input, n: nat)
    requires n < |REPORT_KEYS|
    ensures OwnReport(v, n + 1) ==
      if OwnValues(v)[n].Some? then Put(OwnReport(v, n), REPORT_KEYS[n], OwnValues(v)[n].value) else OwnReport(v, n)
  {}

  /** The likely cause. A key is there only with the sentence it stands for. */
  method Explain(v: Input) returns (likely: Option<string>, key: Option<string>)
    requires v.exc.Some?
    ensures v.exc.value.timedOut && v.generic.Some? ==> likely == Some(v.generic.value.0)
    ensures !(v.exc.value.timedOut && v.generic.Some?) && v.cause.Some? ==> likely == v.cause && key.None?
    ensures v.cause.None? && v.generic.Some? ==> likely == Some(v.generic.value.0)
    ensures likely.None? <==> v.cause.None? && v.generic.None?
    ensures key.Some? <==> v.generic.Some? && (v.exc.value.timedOut || v.cause.None?)
    ensures key.Some? ==> (likely, key) == (Some(v.generic.value.0), Some(v.generic.value.1))
  {
    likely, key := None, None;
    if v.exc.value.timedOut && v.generic.Some? {
      likely, key := Some(v.generic.value.0), Some(v.generic.value.1);
    }
    if likely.None? && v.cause.Some? {
      likely := v.cause;
    }
    if likely.None? && v.generic.Some? {
      likely, key := Some(v.generic.value.0), Some(v.generic.value.1);
    }
  }

  /** The report's own keys, in order. */
  method BuildOwn(v: Input) returns (report: Dict<Value>)
    ensures report == OwnReport(v, |REPORT_KEYS|)
  {
    report := [];
    OwnStep(v, 0);
    report := Put(report, OPERATION, Text(v.operation));
    OwnStep(v, 1);
    report := Put(report, SUCCESS, Flag(v.exc.None? && v.skipped.None?));
    OwnStep(v, 2);
    if v.skipped.Some? { report := Put(report, SKIPPED, v.skipped.value); }
    report := BuildFailure(v, report);
    OwnStep(v, 9);
    if v.attempt.Some? { report := Put(report, ATTEMPT, Number(v.attempt.value)); }
    OwnStep(v, 10);
    if v.attempts.Some? { report := Put(report, ATTEMPTS, Number(v.attempts.value)); }
    OwnStep(v, 11);
    if v.retrying { report := Put(report, RETRYING, Flag(true)); }
  }

  /** The keys a failure adds. */
  method BuildFailure(v: Input, before: Dict<Value>) returns (report: Dict<Value>)
    requires before == OwnReport(v, 3)
    ensures report == OwnReport(v, 9)
  {
    report := before;
    OwnStep(v, 3); OwnStep(v, 4); OwnStep(v, 5);
    OwnStep(v, 6); OwnStep(v, 7); OwnStep(v, 8);
    if v.exc.Some? {
      var e := v.exc.value;
      var stage, detail := AsText(Failure(v.failed, v.stages, v.exc).0), AsText(Failure(v.failed, v.stages, v.exc).1);
      report := Put(report, ERROR, Text(e.text));
      if stage.Some? { report := Put(report, FAILED_STAGE, stage.value); }
      if detail.Some? { report := Put(report, FAILED_DETAIL, detail.value); }
      var likely, key := Explain(v);
      if likely.Some? { report := Put(report, LIKELY_CAUSE, Text(likely.value)); }
      if key.Some? { report := Put(report, LIKELY_CAUSE_KEY, Text(key.value)); }
      if e.timedOut { report := Put(report, TIMED_OUT, Flag(true)); }
    }
  }

  /** `build_report`, key by key: its own keys, the radio facts in their order,
      the other facts, the stage timings, then the trace's notes. */
  method BuildReport(v: Input) returns (report: Dict<Value>)
    ensures report == Report(v)
  {
    report := BuildOwn(v);
    ghost var own := report;
    for i := 0 to |FACT_KEYS|
      invariant report == PutFirst(own, FACT_KEYS, RadioValues(v.facts), i)
    {
      var value := Get(v.facts, FACT_KEYS[i]);
      if value.Some? { report := Put(report, FACT_KEYS[i], value.value); }
    }
    report := AddFacts(v, report);
    report := AddItems(report, StageEntries(v.timings));
    report := AddItems(report, v.notes);
    JoinEntries(v);
  }

  method AddFacts(v: Input, before: Dict<Value>) returns (report: Dict<Value>)
    ensures report == PutAll(before, OtherFacts(v.facts))
  {
    report := before;
    for i := 0 to |v.facts|
      invariant report == PutAll(before, OtherFacts(v.facts[..i]))
    {
      var done := OtherFacts(v.facts[..i]);
      assert v.facts[..i + 1][..i] == v.facts[..i];
      assert v.facts[i].0 in FACT_KEYS ==> OtherFacts(v.facts[..i + 1]) == done + [] == done;
      if v.facts[i].0 !in FACT_KEYS {
        report := Put(report, v.facts[i].0, v.facts[i].1);
        assert OtherFacts(v.facts[..i + 1]) == done + [v.facts[i]];
        assert (done + [v.facts[i]])[..|done|] == done;
      }
    }
    assert v.facts[..|v.facts|] == v.facts;
  }

  method AddItems(before: Dict<Value>, items: Dict<Value>) returns (report: Dict<Value>)
    ensures report == PutAll(before, items)
  {
    report := before;
    for i := 0 to |items|
      invariant report == PutAll(before, items[..i])
    {
      assert items[..i + 1][..i] == items[..i];
      report := Put(report, items[i].0, items[i].1);
    }
    assert items[..|items|] == items;
  }

  lemma {:induction false} JoinEntries(v: Input)
    ensures var own := OwnReport(v, |REPORT_KEYS|);
      Report(v) == PutAll(PutAll(PutAll(PutFirst(own, FACT_KEYS, RadioValues(v.facts), |FACT_KEYS|),
        OtherFacts(v.facts)), StageEntries(v.timings)), v.notes)
  {
    JoinHead(REPORT_KEYS, OwnValues(v), FACT_KEYS, RadioValues(v.facts));
    JoinThree(Head(v), OtherFacts(v.facts), StageEntries(v.timings), v.notes);
  }

  lemma {:induction false} JoinThree(head: Dict<Value>, a: Dict<Value>, b: Dict<Value>, c: Dict<Value>)
    ensures PutAll([], head + (a + b + c)) == PutAll(PutAll(PutAll(PutAll([], head), a), b), c)
  {
    PutAllJoin([], head, a + b + c);
    PutAllJoin(PutAll([], head), a + b, c);
    PutAllJoin(PutAll([], head), a, b);
  }

  lemma {:induction false} JoinHead(o1: seq<string>, v1: seq<Option<Value>>, o2: seq<string>, v2: seq<Option<Value>>)
    requires |o1| == |v1| && |o2| == |v2|
    ensures PutAll([], Picked(o1, v1) + Picked(o2, v2)) == PutFirst(PutFirst([], o1, v1, |o1|), o2, v2, |o2|)
  {
    Whole(o1, v1);
    Whole(o2, v2);
    PutFirstPicked([], o1, v1, |o1|);
    PutFirstPicked(PutFirst([], o1, v1, |o1|), o2, v2, |o2|);
    PutAllJoin([], Picked(o1, v1), Picked(o2, v2));
  }

  lemma {:induction false} Whole(order: seq<string>, values: seq<Option<Value>>)
    ensures order[..|order|] == order && values[..|values|] == values
  {}

  // ── The keys ─────────────────────────────────────────────────────────────

  predicate Avoids(d: Dict<Value>, ks: seq<string>) {
    forall k <- Keys(d) :: k !in ks
  }

  lemma {:induction false} KeysDistinct()
    ensures Distinct(REPORT_KEYS + FACT_KEYS)
  {
    var ks := REPORT_KEYS + FACT_KEYS;
    forall i, j | 0 <= i < j < |ks| ensures ks[i] != ks[j] {
      assert |ks[i]| != |ks[j]| || ks[i][0] != ks[j][0] || ks[i][2] != ks[j][2];
    }
  }

  predicate EndsInS(k: string) {
    |k| >= 2 && k[|k| - 2] == '_' && k[|k| - 1] == 's'
  }

  /** No stage timing can take the place of a report key or a radio key. */
  lemma {:induction false} StageKeysAreFree(name: string)
    ensures name + "_s" !in REPORT_KEYS && name + "_s" !in FACT_KEYS
  {
    assert EndsInS(name + "_s");
    assert forall k <- REPORT_KEYS :: !EndsInS(k);
    assert forall k <- FACT_KEYS :: !EndsInS(k);
  }

  lemma {:induction false} PickedKeys(order: seq<string>, values: seq<Option<Value>>)
    requires |order| == |values| && Distinct(order)
    ensures Distinct(Keys(Picked(order, values))) && forall k <- Keys(Picked(order, values)) :: k in order
    ensures forall i :: 0 <= i < |order| ==> (order[i] in Keys(Picked(order, values)) <==> values[i].Some?)
  {
    if order != [] {
      var n := |order| - 1;
      PickedKeys(order[..n], values[..n]);
      var init := Keys(Picked(order[..n], values[..n]));
      assert Keys(Picked(order, values)) == init + (if values[n].Some? then [order[n]] else []);
      assert order[n] !in order[..n];
      forall i | 0 <= i < n ensures order[i] in init <==> values[i].Some? {
        assert order[..n][i] == order[i] && values[..n][i] == values[i];
      }
    }
  }

  lemma {:induction false} SelectPicked(order: seq<string>, values: seq<Option<Value>>, ks: seq<string>)
    requires |order| == |values|
    requires forall i :: 0 <= i < |order| ==> (order[i] in ks <==> values[i].Some?)
    ensures Select(order, ks) == Keys(Picked(order, values))
  {
    if order != [] {
      var n := |order| - 1;
      forall i | 0 <= i < n ensures order[..n][i] in ks <==> values[..n][i].Some? {
        assert order[..n][i] == order[i] && values[..n][i] == values[i];
      }
      SelectPicked(order[..n], values[..n], ks);
      assert Keys(Picked(order, values)) ==
        Keys(Picked(order[..n], values[..n])) + (if values[n].Some? then [order[n]] else []);
    }
  }

  lemma {:induction false} OwnIsNotRadio(k: string)
    requires k in REPORT_KEYS
    ensures k !in FACT_KEYS
  {
    KeysDistinct();
    SplitDistinct(REPORT_KEYS, FACT_KEYS);
  }

  /** A fact that is no radio fact is among the other facts. */
  lemma {:induction false} OtherFactsHave(facts: Dict<Value>, k: string)
    requires k !in FACT_KEYS
    ensures k in Keys(OtherFacts(facts)) <==> k in Keys(facts)
  {
    if facts != [] {
      var init, last := facts[..|facts| - 1], facts[|facts| - 1];
      OtherFactsHave(init, k);
      assert Keys(facts) == Keys(init) + [last.0];
      assert Keys(OtherFacts(facts)) == Keys(OtherFacts(init)) + (if last.0 in FACT_KEYS then [] else [last.0]);
    }
  }

  lemma {:induction false} ExtraKeys(v: Input, k: string)
    ensures k in Keys(Extras(v)) <==>
      k in Keys(OtherFacts(v.facts)) || k in Keys(StageEntries(v.timings)) || k in Keys(v.notes)
  {
    assert Keys(Extras(v)) == Keys(OtherFacts(v.facts)) + Keys(StageEntries(v.timings)) + Keys(v.notes);
  }

  /** The other facts have no radio fact among them. */
  lemma {:induction false} OtherFactsLack(facts: Dict<Value>, k: string)
    requires k in FACT_KEYS
    ensures k !in Keys(OtherFacts(facts))
  {
    if facts != [] {
      var init, last := facts[..|facts| - 1], facts[|facts| - 1];
      OtherFactsLack(init, k);
      assert Keys(OtherFacts(facts)) == Keys(OtherFacts(init)) + (if last.0 in FACT_KEYS then [] else [last.0]);
    }
  }

  lemma {:induction false} StagesLack(v: Input, k: string)
    requires k in REPORT_KEYS || k in FACT_KEYS
    ensures k !in Keys(StageEntries(v.timings))
  {
    if k in Keys(StageEntries(v.timings)) {
      var i :| 0 <= i < |v.timings| && k == v.timings[i].0 + "_s";
      StageKeysAreFree(v.timings[i].0);
    }
  }

  /** A report key comes back in facts or notes, or not at all. */
  lemma {:induction false} SetAgain(v: Input, k: string)
    requires k in REPORT_KEYS
    ensures k in Keys(Extras(v)) <==> k in Keys(v.facts) || k in Keys(v.notes)
  {
    OwnIsNotRadio(k);
    OtherFactsHave(v.facts, k);
    ExtraKeys(v, k);
    StagesLack(v, k);
  }

  /** A radio key comes back in the notes, or not at all. */
  lemma {:induction false} RadioSetAgain(v: Input, k: string)
    requires k in FACT_KEYS
    ensures k in Keys(Extras(v)) <==> k in Keys(v.notes)
  {
    OtherFactsLack(v.facts, k);
    ExtraKeys(v, k);
    StagesLack(v, k);
  }

  // ── How a report counts ──────────────────────────────────────────────────

  datatype Kind = Ok | Failed | Retried | Skipped

  function Classify(report: Dict<Value>): Kind {
    var error, retrying := Get(report, ERROR), Get(report, RETRYING);
    if Get(report, SKIPPED).Some? then Skipped
    else if error.None? || error == Some(Nothing) then Ok
    else if retrying.Some? && Truthy(retrying.value) then Retried
    else Failed
  }

  predicate Truthy(value: Value) {
    match value
    case Text(t) => t != ""
    case Number(n) => n != 0
    case Flag(b) => b
    case Nothing => false
  }

  /** How an attempt with this outcome counts. */
  function KindOf(exc: Option<Exc>, skipped: Option<Value>, retrying: bool): Kind {
    if skipped.Some? then Skipped else if exc.None? then Ok else if retrying then Retried else Failed
  }

  lemma {:induction false} PickedGet(order: seq<string>, values: seq<Option<Value>>, n: nat, i: nat)
    requires n <= |order| == |values| && i < |order| && Distinct(order)
    ensures Get(PutFirst([], order, values, n), order[i]) == if i < n then values[i] else None
  {
    if n > 0 {
      PickedGet(order, values, n - 1, i);
      if values[n - 1].Some? {
        PutGet(PutFirst([], order, values, n - 1), order[n - 1], values[n - 1].value, order[i]);
      }
    }
  }

  /** A key of the first list is set by that list alone. */
  lemma {:induction false} FirstListDecides(
      o1: seq<string>, v1: seq<Option<Value>>, o2: seq<string>, v2: seq<Option<Value>>, rest: Dict<Value>, i: nat)
    requires |o1| == |v1| && |o2| == |v2| && i < |o1| && Distinct(o1 + o2) && o1[i] !in Keys(rest)
    ensures Get(PutAll([], Picked(o1, v1) + Picked(o2, v2) + rest), o1[i]) == v1[i]
  {
    var key, own, more := o1[i], Picked(o1, v1), Picked(o2, v2) + rest;
    assert key !in Keys(more) by { LaterLacks(o1, o2, v2, rest, i); }
    assert Get(PutAll([], own), key) == v1[i] by { OwnDecides(o1, v1, o2, i); }
    assert Picked(o1, v1) + Picked(o2, v2) + rest == own + more;
    PutAllJoin([], own, more);
    PutAllUntouched(PutAll([], own), more, key);
  }

  lemma {:induction false} LaterLacks(
      o1: seq<string>, o2: seq<string>, v2: seq<Option<Value>>, rest: Dict<Value>, i: nat)
    requires |o2| == |v2| && i < |o1| && Distinct(o1 + o2) && o1[i] !in Keys(rest)
    ensures o1[i] !in Keys(Picked(o2, v2) + rest)
  {
    assert Keys(Picked(o2, v2) + rest) == Keys(Picked(o2, v2)) + Keys(rest);
    if o1[i] in Keys(Picked(o2, v2)) {
      var j := PickedIn(o2, v2, o1[i]);
      Apart(o1, o2, i, j);
    }
  }

  lemma {:induction false} PickedIn(order: seq<string>, values: seq<Option<Value>>, key: string) returns (j: nat)
    requires |order| == |values| && key in Keys(Picked(order, values))
    ensures j < |order| && order[j] == key
  {
    var n := |order| - 1;
    assert Keys(Picked(order, values)) == Keys(Picked(order[..n], values[..n])) + Keys(Entry(order[n], values[n]));
    j := n;
    if key in Keys(Picked(order[..n], values[..n])) { j := PickedIn(order[..n], values[..n], key); }
  }

  lemma {:induction false} OwnDecides(o1: seq<string>, v1: seq<Option<Value>>, o2: seq<string>, i: nat)
    requires |o1| == |v1| && i < |o1| && Distinct(o1 + o2)
    ensures Get(PutAll([], Picked(o1, v1)), o1[i]) == v1[i]
  {
    SplitDistinct(o1, o2);
    PickedGet(o1, v1, |o1|, i);
    Whole(o1, v1);
    PutFirstPicked([], o1, v1, |o1|);
  }

  /** Each of the report's own keys holds what the session gave it, unless the
      caller's facts or notes set it again. */
  lemma {:induction false} ReportHolds(v: Input, i: nat)
    requires i < |REPORT_KEYS| && REPORT_KEYS[i] !in Keys(v.facts) && REPORT_KEYS[i] !in Keys(v.notes)
    ensures Get(Report(v), REPORT_KEYS[i]) == OwnValues(v)[i]
  {
    KeysDistinct();
    SetAgain(v, REPORT_KEYS[i]);
    FirstListDecides(REPORT_KEYS, OwnValues(v), FACT_KEYS, RadioValues(v.facts), Extras(v), i);
  }

  /** Neither facts nor notes use `k`. */
  predicate Free(facts: Dict<Value>, notes: Dict<Value>, k: string) {
    k !in Keys(facts) && k !in Keys(notes)
  }

  /** No fact and no note uses a key that decides how the report counts. */
  predicate Harmless(facts: Dict<Value>, notes: Dict<Value>) {
    Free(facts, notes, SKIPPED) && Free(facts, notes, ERROR) && Free(facts, notes, RETRYING)
  }

  /** What each of the three deciding keys holds: what facts or notes set it to, else the attempt's own. */
  function Deciding(v: Input, k: string, own: Option<Value>): Option<Value> {
    if Free(v.facts, v.notes, k) || k !in Keys(Extras(v)) then own else Some(LastSet(Extras(v), k))
  }

  lemma {:induction false} DecidingKeys(v: Input)
    ensures Get(Report(v), SKIPPED) == Deciding(v, SKIPPED, v.skipped)
    ensures Get(Report(v), ERROR) == Deciding(v, ERROR, if v.exc.Some? then Some(Text(v.exc.value.text)) else None)
    ensures Get(Report(v), RETRYING) == Deciding(v, RETRYING, if v.retrying then Some(Flag(true)) else None)
    ensures forall k :: k == SKIPPED || k == ERROR || k == RETRYING ==>
      (k in Keys(Extras(v)) <==> !Free(v.facts, v.notes, k))
  {
    OwnOrSetAgain(v, 2);
    OwnOrSetAgain(v, 3);
    OwnOrSetAgain(v, 11);
  }

  lemma {:induction false} OwnOrSetAgain(v: Input, i: nat)
    requires i < |REPORT_KEYS|
    ensures Get(Report(v), REPORT_KEYS[i]) == Deciding(v, REPORT_KEYS[i], OwnValues(v)[i])
    ensures REPORT_KEYS[i] in Keys(Extras(v)) <==> !Free(v.facts, v.notes, REPORT_KEYS[i])
  {
    SetAgain(v, REPORT_KEYS[i]);
    if Free(v.facts, v.notes, REPORT_KEYS[i]) { ReportHolds(v, i); } else { Overridden(v, REPORT_KEYS[i]); }
  }

  /** The report counts as the attempt it was built from. */
  predicate CountsRight(v: Input) {
    Classify(Report(v)) == KindOf(v.exc, v.skipped, v.retrying)
  }

  lemma {:induction false} HarmlessCounts(v: Input)
    requires Harmless(v.facts, v.notes)
    ensures CountsRight(v)
  {
    DecidingKeys(v);
  }

  /** These facts and notes are counted right whatever the attempt came to, exactly
      when they leave the three deciding keys alone. */
  lemma {:induction false} CountsRightExactlyWhenHarmless(facts: Dict<Value>, notes: Dict<Value>)
    ensures (forall v: Input :: v.facts == facts && v.notes == notes ==> CountsRight(v)) <==> Harmless(facts, notes)
  {
    if Harmless(facts, notes) {
      forall v: Input | v.facts == facts && v.notes == notes ensures CountsRight(v) {
        HarmlessCounts(v);
      }
    } else {
      var v := Miscounted(facts, notes);
      assert v.facts == facts && v.notes == notes && !CountsRight(v);
    }
  }

  const FAILURE := Exc("", None, None, false, false)

  /** An attempt that these facts and notes get counted as something it was not. */
  lemma {:induction false} Miscounted(facts: Dict<Value>, notes: Dict<Value>) returns (v: Input)
    requires !Harmless(facts, notes)
    ensures v.facts == facts && v.notes == notes && !CountsRight(v)
  {
    v := Input("", None, map[], [], notes, None, None, facts, None, None, None, None, false);
    DecidingKeys(v);
    if Free(facts, notes, SKIPPED) {
      if !Free(facts, notes, ERROR) {
        if LastSet(Extras(v), ERROR) == Nothing { v := v.(exc := Some(FAILURE)); }
      } else {
        v := v.(exc := Some(FAILURE), retrying := !Truthy(LastSet(Extras(v), RETRYING)));
      }
      DecidingKeys(v);
    }
  }

  /** The value the last entry for `k` gives it. */
  function LastSet(items: Dict<Value>, k: string): Value
    requires k in Keys(items)
  {
    var init, last := items[..|items| - 1], items[|items| - 1];
    if last.0 == k then last.1 else
      assert Keys(items) == Keys(init) + [last.0];
      LastSet(init, k)
  }

  lemma {:induction false} PutAllLast(d: Dict<Value>, items: Dict<Value>, k: string)
    requires k in Keys(items)
    ensures Get(PutAll(d, items), k) == Some(LastSet(items, k))
  {
    var init, last := items[..|items| - 1], items[|items| - 1];
    PutGet(PutAll(d, init), last.0, last.1, k);
    if last.0 != k {
      assert Keys(items) == Keys(init) + [last.0];
      PutAllLast(d, init, k);
    }
  }

  /** A report key that facts or notes set holds what they set it to. */
  lemma {:induction false} Overridden(v: Input, k: string)
    requires k in REPORT_KEYS && (k in Keys(v.facts) || k in Keys(v.notes))
    ensures k in Keys(Extras(v)) && Get(Report(v), k) == Some(LastSet(Extras(v), k))
  {
    SetAgain(v, k);
    PutAllJoin([], Head(v), Extras(v));
    PutAllLast(PutAll([], Head(v)), Extras(v), k);
  }

  // ── fallback_report ──────────────────────────────────────────────────────

  /** What the fallback reports of: the outcome, the blame, the try and the retry. */
  function Reduced(v: Input): Input {
    v.(exc := if v.exc.Some? then Some(v.exc.value.(timedOut := false)) else None,
       timings := [], notes := [], facts := [], cause := None, generic := None, attempts := None)
  }

  method BuildFallback(v: Input) returns (report: Dict<Value>)
    ensures report == Fallback(v)
  {
    ghost var r := Reduced(v);
    report := [];
    OwnStep(r, 0);
    report := Put(report, OPERATION, Text(v.operation));
    OwnStep(r, 1);
    report := Put(report, SUCCESS, Flag(v.exc.None? && v.skipped.None?));
    OwnStep(r, 2);
    if v.skipped.Some? { report := Put(report, SKIPPED, v.skipped.value); }
    report := FallbackFailure(v, report);
    OwnStep(r, 6); OwnStep(r, 7); OwnStep(r, 8);
    OwnStep(r, 9);
    if v.attempt.Some? { report := Put(report, ATTEMPT, Number(v.attempt.value)); }
    OwnStep(r, 10); OwnStep(r, 11);
    if v.retrying { report := Put(report, RETRYING, Flag(true)); }
  }

  lemma {:induction false} SameBlame(v: Input)
    ensures Failure(v.failed, v.stages, Reduced(v).exc) == Failure(v.failed, v.stages, v.exc)
  {}

  method FallbackFailure(v: Input, before: Dict<Value>) returns (report: Dict<Value>)
    requires before == OwnReport(Reduced(v), 3)
    ensures report == OwnReport(Reduced(v), 6)
  {
    report := before;
    OwnStep(Reduced(v), 3); OwnStep(Reduced(v), 4); OwnStep(Reduced(v), 5);
    SameBlame(v);
    if v.exc.Some? {
      var stage, detail := AsText(Failure(v.failed, v.stages, v.exc).0), AsText(Failure(v.failed, v.stages, v.exc).1);
      report := Put(report, ERROR, Text(v.exc.value.text));
      if stage.Some? { report := Put(report, FAILED_STAGE, stage.value); }
      if detail.Some? { report := Put(report, FAILED_DETAIL, detail.value); }
    }
  }

  function Fallback(v: Input): Dict<Value> {
    OwnReport(Reduced(v), |REPORT_KEYS|)
  }

  /** The fallback always counts as the attempt it was built from, so as the full
      report does exactly where that one counts right. */
  lemma {:induction false} FallbackCountsRight(v: Input)
    ensures Classify(Fallback(v)) == KindOf(v.exc, v.skipped, v.retrying)
    ensures Classify(Fallback(v)) == Classify(Report(v)) <==> CountsRight(v)
  {
    SameKey(v, 2);
    SameKey(v, 3);
    SameKey(v, 11);
  }

  /** It names the same stage, detail, error and try wherever facts and notes leave those keys alone. */
  lemma {:induction false} FallbackAgrees(v: Input)
    ensures Free(v.facts, v.notes, FAILED_STAGE) ==> Get(Fallback(v), FAILED_STAGE) == Get(Report(v), FAILED_STAGE)
    ensures Free(v.facts, v.notes, FAILED_DETAIL) ==> Get(Fallback(v), FAILED_DETAIL) == Get(Report(v), FAILED_DETAIL)
    ensures Free(v.facts, v.notes, ERROR) ==> Get(Fallback(v), ERROR) == Get(Report(v), ERROR)
    ensures Free(v.facts, v.notes, ATTEMPT) ==> Get(Fallback(v), ATTEMPT) == Get(Report(v), ATTEMPT)
  {
    SameKey(v, 3);
    SameKey(v, 4);
    SameKey(v, 5);
    SameKey(v, 9);
  }

  /** A key the reduction leaves alone. */
  lemma {:induction false} SameKey(v: Input, i: nat)
    requires i < |REPORT_KEYS| && OwnValues(Reduced(v))[i] == OwnValues(v)[i]
    ensures Get(Fallback(v), REPORT_KEYS[i]) == OwnValues(v)[i]
    ensures Free(v.facts, v.notes, REPORT_KEYS[i]) ==>
      Get(Fallback(v), REPORT_KEYS[i]) == Get(Report(v), REPORT_KEYS[i])
  {
    KeysDistinct();
    SplitDistinct(REPORT_KEYS, FACT_KEYS);
    PickedGet(REPORT_KEYS, OwnValues(Reduced(v)), |REPORT_KEYS|, i);
    if Free(v.facts, v.notes, REPORT_KEYS[i]) { ReportHolds(v, i); }
  }
}
