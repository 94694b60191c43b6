/** The order of a report's keys, and exactly which facts and notes keep it. */
module ReportOrder {
  import opened Ble
  import opened KeyOrder
  import opened OrderedMap
  import opened Reports
  import opened Stages

  /** The documented order: the report's own keys in theirs, the radio facts in
      theirs, then other facts, stage timings and notes where first met. */
  predicate InOrder(v: Input) {
    var ks := Keys(Report(v));
    ks == Select(REPORT_KEYS, ks) + Select(FACT_KEYS, ks) + Rest(v)
  }

  function Rest(v: Input): seq<string> {
    Without(FirstOf(Keys(Extras(v))), REPORT_KEYS + FACT_KEYS)
  }

  /** `retrying` is the first fact a report does not have anyway, and no radio
      fact comes in front of it. */
  ghost predicate RetryingLeads(facts: Dict<Value>) {
    && (forall k <- FACT_KEYS :: k !in Keys(facts))
    && exists i :: LeadsAt(facts, i)
  }

  predicate LeadsAt(facts: Dict<Value>, i: int) {
    && 0 <= i < |facts| && facts[i].0 == RETRYING
    && forall j :: 0 <= j < i ==> facts[j].0 == OPERATION || facts[j].0 == SUCCESS
  }

  /** What facts and notes may use of the report's keys: `operation` and `success`,
      which are always there; radio keys that are facts already; and `retrying`
      where it falls into its own place. */
  ghost predicate Orderly(facts: Dict<Value>, notes: Dict<Value>) {
    && (forall i :: 2 <= i < |REPORT_KEYS| - 1 ==> Free(facts, notes, REPORT_KEYS[i]))
    && (forall k <- FACT_KEYS :: k in Keys(notes) ==> k in Keys(facts))
    && (Free(facts, notes, RETRYING) || RetryingLeads(facts))
  }

  // ── The keys of a report ─────────────────────────────────────────────────

  /** Keys picked from two distinct lists. */
  lemma {:induction false} PickedTwo(o1: seq<string>, v1: seq<Option<Value>>, o2: seq<string>, v2: seq<Option<Value>>)
    requires |o1| == |v1| && |o2| == |v2| && Distinct(o1 + o2)
    ensures var ks := Keys(Picked(o1, v1)) + Keys(Picked(o2, v2));
      && Distinct(ks)
      && (forall i :: 0 <= i < |o1| ==> (o1[i] in ks <==> v1[i].Some?))
      && (forall i :: 0 <= i < |o2| ==> (o2[i] in ks <==> v2[i].Some?))
      && (forall k <- ks :: k in o1 + o2)
  {
    SplitDistinct(o1, o2);
    PickedKeys(o1, v1);
    PickedKeys(o2, v2);
    var a, b := Keys(Picked(o1, v1)), Keys(Picked(o2, v2));
    JoinDistinct(a, b);
    forall i | 0 <= i < |o1| ensures o1[i] in a + b <==> v1[i].Some? { assert o1[i] !in o2; }
    forall i | 0 <= i < |o2| ensures o2[i] in a + b <==> v2[i].Some? { assert o2[i] !in o1; }
  }

  /** The keys every report sets by itself: own and radio keys that have a value. */
  lemma {:induction false} HeadKeys(v: Input)
    ensures var ks := Keys(Head(v));
      && ks == Keys(Picked(REPORT_KEYS, OwnValues(v))) + Keys(Picked(FACT_KEYS, RadioValues(v.facts)))
      && Distinct(ks)
      && (forall i :: 0 <= i < |REPORT_KEYS| ==> (REPORT_KEYS[i] in ks <==> OwnValues(v)[i].Some?))
      && (forall i :: 0 <= i < |FACT_KEYS| ==> (FACT_KEYS[i] in ks <==> Get(v.facts, FACT_KEYS[i]).Some?))
  {
    KeysDistinct();
    PickedTwo(REPORT_KEYS, OwnValues(v), FACT_KEYS, RadioValues(v.facts));
  }

  lemma {:induction false} ReportKeys(v: Input)
    ensures Keys(Report(v)) == FirstOf(Keys(Head(v)) + Keys(Extras(v)))
    ensures Distinct(Keys(Report(v)))
    ensures forall k :: k in Keys(Report(v)) <==> k in Keys(Head(v)) || k in Keys(Extras(v))
  {
    PutAllKeys([], Entries(v));
    assert Keys<Value>([]) + Keys(Entries(v)) == Keys(Head(v)) + Keys(Extras(v));
    FirstOfFacts(Keys(Head(v)) + Keys(Extras(v)));
  }

  /** Which own and radio keys a report has: those with a value, and those that
      facts or notes set. Each is there once. */
  lemma {:induction false} WhichKeys(v: Input)
    ensures Distinct(Keys(Report(v)))
    ensures forall i :: 0 <= i < |REPORT_KEYS| ==>
      (REPORT_KEYS[i] in Keys(Report(v)) <==> OwnValues(v)[i].Some? || !Free(v.facts, v.notes, REPORT_KEYS[i]))
    ensures forall i :: 0 <= i < |FACT_KEYS| ==>
      (FACT_KEYS[i] in Keys(Report(v)) <==> FACT_KEYS[i] in Keys(v.facts) || FACT_KEYS[i] in Keys(v.notes))
  {
    ReportKeys(v);
    HeadKeys(v);
    forall i | 0 <= i < |REPORT_KEYS|
      ensures REPORT_KEYS[i] in Keys(Report(v)) <==> OwnValues(v)[i].Some? || !Free(v.facts, v.notes, REPORT_KEYS[i])
    {
      SetAgain(v, REPORT_KEYS[i]);
    }
    forall i | 0 <= i < |FACT_KEYS|
      ensures FACT_KEYS[i] in Keys(Report(v)) <==> FACT_KEYS[i] in Keys(v.facts) || FACT_KEYS[i] in Keys(v.notes)
    {
      GetInKeys(v.facts, FACT_KEYS[i]);
      RadioSetAgain(v, FACT_KEYS[i]);
    }
  }

  // ── Orderly facts and notes keep the order ───────────────────────────────

  /** Keys picked from two lists, then keys of neither, are in order. */
  lemma {:induction false} Arranged(
      o1: seq<string>, v1: seq<Option<Value>>, o2: seq<string>, v2: seq<Option<Value>>, rest: seq<string>)
    requires |o1| == |v1| && |o2| == |v2| && Distinct(o1 + o2) && forall k <- rest :: k !in o1 + o2
    ensures var ks := Keys(Picked(o1, v1)) + Keys(Picked(o2, v2)) + rest;
      ks == Select(o1, ks) + Select(o2, ks) + rest
  {
    PickedTwo(o1, v1, o2, v2);
    var ks := Keys(Picked(o1, v1)) + Keys(Picked(o2, v2)) + rest;
    forall i | 0 <= i < |o1| ensures o1[i] in ks <==> v1[i].Some? { assert o1[i] in o1 + o2; }
    forall i | 0 <= i < |o2| ensures o2[i] in ks <==> v2[i].Some? { assert o2[i] in o1 + o2; }
    SelectPicked(o1, v1, ks);
    SelectPicked(o2, v2, ks);
  }

  /** The own values as the order has them: `retrying` counts as present where it leads the facts. */
  ghost function OwnOrLed(v: Input): (r: seq<Option<Value>>)
    ensures |r| == |REPORT_KEYS|
  {
    if RetryingLeads(v.facts) then OwnValues(v)[|REPORT_KEYS| - 1 := Some(Nothing)] else OwnValues(v)
  }

  lemma {:induction false} OrderlyKeeps(v: Input)
    requires Orderly(v.facts, v.notes)
    ensures InOrder(v)
  {
    var own, radio := Keys(Picked(REPORT_KEYS, OwnOrLed(v))), Keys(Picked(FACT_KEYS, RadioValues(v.facts)));
    KeysDistinct();
    PickedTwo(REPORT_KEYS, OwnOrLed(v), FACT_KEYS, RadioValues(v.facts));
    LedKeys(v);
    FirstOfJoin(own + radio, Keys(Extras(v)));
    RestIsNew(v, own + radio);
    RestAvoids(v);
    Arranged(REPORT_KEYS, OwnOrLed(v), FACT_KEYS, RadioValues(v.facts), Rest(v));
  }

  lemma {:induction false} RestAvoids(v: Input)
    ensures forall k <- Rest(v) :: k !in REPORT_KEYS + FACT_KEYS
  {
    forall k <- Rest(v) ensures k !in REPORT_KEYS + FACT_KEYS {
      WithoutFacts(FirstOf(Keys(Extras(v))), REPORT_KEYS + FACT_KEYS, k);
    }
  }

  /** The first occurrences are the same with `retrying` counted as present. */
  lemma {:induction false} LedKeys(v: Input)
    ensures Keys(Report(v)) == FirstOf(
      Keys(Picked(REPORT_KEYS, OwnOrLed(v))) + Keys(Picked(FACT_KEYS, RadioValues(v.facts))) + Keys(Extras(v)))
  {
    var led, radio := Keys(Picked(REPORT_KEYS, OwnOrLed(v))), Keys(Picked(FACT_KEYS, RadioValues(v.facts)));
    var head, extras := Keys(Head(v)), Keys(Extras(v));
    assert Keys(Report(v)) == FirstOf(head + extras) by { ReportKeys(v); }
    if RetryingLeads(v.facts) {
      assert head == Keys(Picked(REPORT_KEYS, OwnValues(v))) + radio by { HeadKeys(v); }
      assert radio == [] by { NoRadio(v); }
      OwnLed(v);
      if OwnValues(v)[|REPORT_KEYS| - 1].None? {
        LedFirst(v);
        assert led + radio == head + [RETRYING];
      } else {
        assert led + radio == head;
      }
    } else {
      assert led + radio == head by { HeadKeys(v); }
    }
  }

  /** What counting `retrying` as present adds to the own keys. */
  lemma {:induction false} OwnLed(v: Input)
    requires RetryingLeads(v.facts)
    ensures Keys(Picked(REPORT_KEYS, OwnOrLed(v))) == Keys(Picked(REPORT_KEYS, OwnValues(v)))
      + (if OwnValues(v)[|REPORT_KEYS| - 1].None? then [RETRYING] else [])
  {
    var n := |REPORT_KEYS| - 1;
    assert REPORT_KEYS[n] == RETRYING;
    LastPicked(REPORT_KEYS, OwnValues(v), Some(Nothing));
    LastPicked(REPORT_KEYS, OwnValues(v), OwnValues(v)[n]);
    assert OwnValues(v)[n := OwnValues(v)[n]] == OwnValues(v);
  }

  /** The last key comes last. */
  lemma {:induction false} LastPicked(order: seq<string>, values: seq<Option<Value>>, last: Option<Value>)
    requires |order| == |values| > 0
    ensures var n := |order| - 1;
      Keys(Picked(order, values[n := last])) == Keys(Picked(order[..n], values[..n])) + Keys(Entry(order[n], last))
  {
    var n := |order| - 1;
    assert values[n := last][..n] == values[..n];
  }

  lemma {:induction false} NoRadio(v: Input)
    requires forall k <- FACT_KEYS :: k !in Keys(v.facts)
    ensures Keys(Picked(FACT_KEYS, RadioValues(v.facts))) == []
  {
    forall i | 0 <= i < |FACT_KEYS| ensures RadioValues(v.facts)[i].None? {
      GetInKeys(v.facts, FACT_KEYS[i]);
    }
    NothingPicked(FACT_KEYS, RadioValues(v.facts));
  }

  lemma {:induction false} NothingPicked(order: seq<string>, values: seq<Option<Value>>)
    requires |order| == |values| && forall i :: 0 <= i < |order| ==> values[i].None?
    ensures Picked(order, values) == []
  {
    if order != [] {
      var n := |order| - 1;
      forall i | 0 <= i < n ensures values[..n][i].None? { assert values[..n][i] == values[i]; }
      NothingPicked(order[..n], values[..n]);
    }
  }

  lemma {:induction false} LedFirst(v: Input)
    requires RetryingLeads(v.facts) && OwnValues(v)[|REPORT_KEYS| - 1].None?
    ensures var head := Keys(Head(v)); FirstOf(head + Keys(Extras(v))) == FirstOf(head + [RETRYING] + Keys(Extras(v)))
  {
    var i :| LeadsAt(v.facts, i);
    var head, front := Keys(Head(v)), v.facts[..i];
    var p := Keys(OtherFacts(front));
    var s := Keys(OtherFacts(v.facts[i + 1..])) + Keys(StageEntries(v.timings)) + Keys(v.notes);
    assert Keys(Extras(v)) == p + [RETRYING] + s by { ExtrasAt(v, i); }
    assert RETRYING !in head by {
      HeadKeys(v);
      assert REPORT_KEYS[|REPORT_KEYS| - 1] == RETRYING;
    }
    forall k <- p ensures k in head { FrontIsThere(v, front, k); }
    assert Distinct(head) by { HeadKeys(v); }
    FirstNewKey(head, p, RETRYING, s);
  }

  /** The extras around a fact that is no radio fact. */
  lemma {:induction false} ExtrasAt(v: Input, i: nat)
    requires i < |v.facts| && v.facts[i].0 !in FACT_KEYS
    ensures Keys(Extras(v)) == Keys(OtherFacts(v.facts[..i])) + [v.facts[i].0]
      + (Keys(OtherFacts(v.facts[i + 1..])) + Keys(StageEntries(v.timings)) + Keys(v.notes))
  {
    var front, fact, others := v.facts[..i], [v.facts[i]], v.facts[i + 1..];
    assert v.facts == (front + fact) + others;
    OtherFactsJoin(front + fact, others);
    OtherFactsJoin(front, fact);
    assert OtherFacts(fact) == fact by { assert OtherFacts(fact[..0]) == []; }
  }

  lemma {:induction false} OtherFactsJoin(a: Dict<Value>, b: Dict<Value>)
    ensures OtherFacts(a + b) == OtherFacts(a) + OtherFacts(b)
  {
    if b == [] {
      assert a + b == a;
    } else {
      assert (a + b)[..|a + b| - 1] == a + b[..|b| - 1];
      OtherFactsJoin(a, b[..|b| - 1]);
    }
  }

  /** `operation` and `success` are in every report from the start. */
  lemma {:induction false} FrontIsThere(v: Input, front: Dict<Value>, k: string)
    requires forall j :: 0 <= j < |front| ==> front[j].0 == OPERATION || front[j].0 == SUCCESS
    requires k in Keys(OtherFacts(front))
    ensures k in Keys(Head(v))
  {
    OtherFactsFrom(front, k);
    HeadKeys(v);
    assert k == REPORT_KEYS[0] || k == REPORT_KEYS[1];
  }

  lemma {:induction false} OtherFactsFrom(facts: Dict<Value>, k: string)
    requires k in Keys(OtherFacts(facts))
    ensures k in Keys(facts)
  {
    var init, last := facts[..|facts| - 1], facts[|facts| - 1];
    assert Keys(facts) == Keys(init) + [last.0];
    assert Keys(OtherFacts(facts)) == Keys(OtherFacts(init)) + (if last.0 in FACT_KEYS then [] else [last.0]);
    if k in Keys(OtherFacts(init)) { OtherFactsFrom(init, k); }
  }

  /** Of what facts and notes set again, the head has all that is a report key, so the rest is what is new. */
  lemma {:induction false} RestIsNew(v: Input, head: seq<string>)
    requires Orderly(v.facts, v.notes)
    requires forall i :: 0 <= i < |REPORT_KEYS| ==> (REPORT_KEYS[i] in head <==> OwnOrLed(v)[i].Some?)
    requires forall i :: 0 <= i < |FACT_KEYS| ==> (FACT_KEYS[i] in head <==> RadioValues(v.facts)[i].Some?)
    requires forall k <- head :: k in REPORT_KEYS + FACT_KEYS
    ensures Without(FirstOf(Keys(Extras(v))), head) == Rest(v)
  {
    FirstOfFacts(Keys(Extras(v)));
    forall k <- FirstOf(Keys(Extras(v))) ensures k in head <==> k in REPORT_KEYS + FACT_KEYS {
      if i :| 0 <= i < |REPORT_KEYS| && REPORT_KEYS[i] == k {
        SetAgain(v, k);
        assert !Free(v.facts, v.notes, REPORT_KEYS[i]);
        assert i < 2 || i == |REPORT_KEYS| - 1;
      }
      if i :| 0 <= i < |FACT_KEYS| && FACT_KEYS[i] == k {
        RadioSetAgain(v, k);
        GetInKeys(v.facts, k);
      }
    }
    WithoutSame(FirstOf(Keys(Extras(v))), head, REPORT_KEYS + FACT_KEYS);
  }

  // ── And no others do ─────────────────────────────────────────────────────

  /** Own keys belong before all others, radio keys before all but those. */
  predicate Outranks(x: string, y: string) {
    (x in REPORT_KEYS && y !in REPORT_KEYS) || (x in FACT_KEYS && y !in REPORT_KEYS + FACT_KEYS)
  }

  lemma {:induction false} RanksHold(v: Input, x: string, y: string)
    requires InOrder(v) && x in Keys(Report(v)) && y in Keys(Report(v)) && Outranks(x, y)
    ensures Before(Keys(Report(v)), x, y)
  {
    var ks := Keys(Report(v));
    SelectHas(REPORT_KEYS, ks, x);
    SelectHas(FACT_KEYS, ks, x);
    SelectHas(REPORT_KEYS, ks, y);
    SelectHas(FACT_KEYS, ks, y);
    RankBefore(Select(REPORT_KEYS, ks), Select(FACT_KEYS, ks), Rest(v), x, y);
  }

  lemma {:induction false} Misplaced(v: Input, x: string, y: string)
    requires Before(Keys(Report(v)), x, y) && Outranks(y, x)
    ensures !InOrder(v)
  {
    if InOrder(v) {
      ReportKeys(v);
      NotBothWays(Keys(Report(v)), x, y);
      RanksHold(v, y, x);
    }
  }

  /** An own key without a value that facts or notes set stands behind every own key
      that has one, so also behind those that belong after it. */
  lemma {:induction false} OutOfPlace(v: Input, i: nat, j: nat)
    requires i < j < |REPORT_KEYS| && OwnValues(v)[i].None? && OwnValues(v)[j].Some?
    requires !Free(v.facts, v.notes, REPORT_KEYS[i])
    ensures Before(Keys(Report(v)), REPORT_KEYS[j], REPORT_KEYS[i]) && !InOrder(v)
  {
    var x, y := REPORT_KEYS[j], REPORT_KEYS[i];
    ReportKeys(v);
    HeadKeys(v);
    SetAgain(v, y);
    FirstOfBefore(Keys(Head(v)), Keys(Extras(v)), x, y);
    if InOrder(v) { OwnInOrder(v, i, j); NotBothWays(Keys(Report(v)), x, y); }
  }

  lemma {:induction false} OwnInOrder(v: Input, i: nat, j: nat)
    requires InOrder(v) && i < j < |REPORT_KEYS|
    requires REPORT_KEYS[i] in Keys(Report(v)) && REPORT_KEYS[j] in Keys(Report(v))
    ensures Before(Keys(Report(v)), REPORT_KEYS[i], REPORT_KEYS[j])
  {
    PickedBefore(REPORT_KEYS, FACT_KEYS, Rest(v), Keys(Report(v)), i, j);
  }

  /** A report key that only the notes set stands behind the stage timings. */
  lemma {:induction false} BehindTheStages(v: Input, k: string)
    requires v.timings != [] && k in REPORT_KEYS + FACT_KEYS && k !in Keys(Head(v))
    requires k !in Keys(v.facts) && k in Keys(v.notes)
    ensures !InOrder(v)
  {
    var x := v.timings[0].0 + "_s";
    FirstStage(v);
    NewInNotes(v, k);
    NotesLast(v);
    FirstOfBefore(BeforeNotes(v), Keys(v.notes), x, k);
    StageRanksLast(v.timings[0].0, k);
    Misplaced(v, x, k);
  }

  lemma {:induction false} FirstStage(v: Input)
    requires v.timings != []
    ensures v.timings[0].0 + "_s" in BeforeNotes(v)
  {
    assert Keys(StageEntries(v.timings))[0] == v.timings[0].0 + "_s";
  }

  lemma {:induction false} NotesLast(v: Input)
    ensures Keys(Report(v)) == FirstOf(BeforeNotes(v) + Keys(v.notes))
  {
    ReportKeys(v);
    assert Keys(Head(v)) + Keys(Extras(v)) == BeforeNotes(v) + Keys(v.notes);
  }

  lemma {:induction false} StageRanksLast(name: string, k: string)
    requires k in REPORT_KEYS + FACT_KEYS
    ensures Outranks(k, name + "_s")
  {
    StageKeysAreFree(name);
  }

  function BeforeNotes(v: Input): seq<string> {
    Keys(Head(v)) + Keys(OtherFacts(v.facts)) + Keys(StageEntries(v.timings))
  }

  lemma {:induction false} NewInNotes(v: Input, k: string)
    requires k in REPORT_KEYS + FACT_KEYS && k !in Keys(Head(v)) && k !in Keys(v.facts)
    ensures k !in BeforeNotes(v)
  {
    if k in Keys(OtherFacts(v.facts)) { OtherFactsFrom(v.facts, k); }
    StagesLack(v, k);
  }

  /** `retrying` among the facts stands behind a radio fact. */
  lemma {:induction false} BehindARadioFact(v: Input, r: string)
    requires OwnValues(v)[|REPORT_KEYS| - 1].None? && RETRYING in Keys(v.facts)
    requires r in FACT_KEYS && r in Keys(v.facts)
    ensures !InOrder(v)
  {
    var m :| 0 <= m < |FACT_KEYS| && FACT_KEYS[m] == r;
    RetryingIsNew(v);
    HeadKeys(v);
    GetInKeys(v.facts, r);
    SetAgain(v, RETRYING);
    FirstOfBefore(Keys(Head(v)), Keys(Extras(v)), r, RETRYING);
    ReportKeys(v);
    if r in REPORT_KEYS { OwnIsNotRadio(r); }
    Misplaced(v, r, RETRYING);
  }

  lemma {:induction false} RetryingIsNew(v: Input)
    requires OwnValues(v)[|REPORT_KEYS| - 1].None?
    ensures RETRYING !in Keys(Head(v))
  {
    HeadKeys(v);
    assert REPORT_KEYS[|REPORT_KEYS| - 1] == RETRYING;
  }

  /** `retrying` among the facts stands behind another fact in front of it. */
  lemma {:induction false} BehindAFact(v: Input, i: nat, j: nat)
    requires j < i < |v.facts| && v.facts[i].0 == RETRYING && v.facts[j].0 !in REPORT_KEYS + FACT_KEYS
    requires forall m :: 0 <= m < i ==> v.facts[m].0 != RETRYING
    requires OwnValues(v)[|REPORT_KEYS| - 1].None?
    ensures !InOrder(v)
  {
    var x, front := v.facts[j].0, Keys(Head(v)) + Keys(OtherFacts(v.facts[..i]));
    assert x in front && RETRYING !in front by {
      RetryingIsNew(v);
      FactsBefore(v.facts, i, j);
    }
    var s := Keys(OtherFacts(v.facts[i + 1..])) + Keys(StageEntries(v.timings)) + Keys(v.notes);
    assert Keys(Report(v)) == FirstOf(front + ([RETRYING] + s)) by { SplitAt(v, i); }
    FirstOfBefore(front, [RETRYING] + s, x, RETRYING);
    Misplaced(v, x, RETRYING);
  }

  lemma {:induction false} FactsBefore(facts: Dict<Value>, i: nat, j: nat)
    requires j < i < |facts| && facts[j].0 !in FACT_KEYS && forall m :: 0 <= m < i ==> facts[m].0 != RETRYING
    ensures var p := Keys(OtherFacts(facts[..i])); facts[j].0 in p && RETRYING !in p
  {
    var front := facts[..i];
    assert Keys(front)[j] == facts[j].0;
    OtherFactsHave(front, facts[j].0);
    assert RETRYING !in Keys(front);
    if RETRYING in Keys(OtherFacts(front)) { OtherFactsFrom(front, RETRYING); }
  }

  lemma {:induction false} SplitAt(v: Input, i: nat)
    requires i < |v.facts| && v.facts[i].0 == RETRYING
    ensures var front := Keys(Head(v)) + Keys(OtherFacts(v.facts[..i]));
      var s := Keys(OtherFacts(v.facts[i + 1..])) + Keys(StageEntries(v.timings)) + Keys(v.notes);
      Keys(Report(v)) == FirstOf(front + ([RETRYING] + s))
  {
    var head, p := Keys(Head(v)), Keys(OtherFacts(v.facts[..i]));
    var s := Keys(OtherFacts(v.facts[i + 1..])) + Keys(StageEntries(v.timings)) + Keys(v.notes);
    ReportKeys(v);
    OwnIsNotRadio(RETRYING);
    ExtrasAt(v, i);
    Regroup(head, p, [RETRYING], s);
  }

  lemma {:induction false} Regroup(a: seq<string>, b: seq<string>, c: seq<string>, d: seq<string>)
    ensures a + (b + c + d) == (a + b) + (c + d)
  {}

  /** A session that worked first time, as it is published with these facts and notes. */
  function Plain(facts: Dict<Value>, notes: Dict<Value>): Input {
    Input("", None, map[], [], notes, None, None, facts, None, None, None, None, false)
  }

  lemma {:induction false} PlainOwn(v: Input, i: nat)
    requires v.exc.None? && v.skipped.None? && v.attempt.None? && v.attempts.None?
    requires 2 <= i < |REPORT_KEYS| - 1
    ensures OwnValues(v)[i].None?
  {}

  /** A session these facts and notes publish out of order. */
  lemma {:induction false} Disordered(facts: Dict<Value>, notes: Dict<Value>) returns (v: Input)
    requires !Orderly(facts, notes)
    ensures v.facts == facts && v.notes == notes && !InOrder(v)
  {
    var plain := Plain(facts, notes);
    var timed := plain.(timings := [("", 0)]);
    var n := |REPORT_KEYS| - 1;
    if i :| 2 <= i < n && !Free(facts, notes, REPORT_KEYS[i]) {
      v := plain.(retrying := true);
      PlainOwn(v, i);
      OutOfPlace(v, i, n);
    } else if k :| k in FACT_KEYS && k in Keys(notes) && k !in Keys(facts) {
      v := timed;
      HeadKeys(v);
      GetInKeys(facts, k);
      BehindTheStages(v, k);
    } else if RETRYING !in Keys(facts) {
      v := timed;
      HeadKeys(v);
      assert REPORT_KEYS[n] == RETRYING;
      BehindTheStages(v, RETRYING);
    } else if r :| r in FACT_KEYS && r in Keys(facts) {
      v := plain;
      BehindARadioFact(v, r);
    } else {
      v := plain;
      var i := FirstRetrying(facts);
      assert !LeadsAt(facts, i);
      var j :| 0 <= j < i && facts[j].0 != OPERATION && facts[j].0 != SUCCESS;
      assert Keys(facts)[j] == facts[j].0;
      Foreign(facts, notes, facts[j].0);
      BehindAFact(v, i, j);
    }
  }

  lemma {:induction false} FirstRetrying(facts: Dict<Value>) returns (i: nat)
    requires RETRYING in Keys(facts)
    ensures i < |facts| && facts[i].0 == RETRYING && forall m :: 0 <= m < i ==> facts[m].0 != RETRYING
  {
    i := 0;
    while facts[i].0 != RETRYING
      invariant i < |facts| && RETRYING in Keys(facts) && forall m :: 0 <= m < i ==> facts[m].0 != RETRYING
      decreases |facts| - i
    {
      if i + 1 == |facts| { assert forall m :: 0 <= m < |facts| ==> Keys(facts)[m] != RETRYING; }
      i := i + 1;
    }
  }

  /** A fact that is none of the report keys still allowed is no report key at all. */
  lemma {:induction false} Foreign(facts: Dict<Value>, notes: Dict<Value>, x: string)
    requires x in Keys(facts) && x !in [OPERATION, SUCCESS, RETRYING]
    requires forall i :: 2 <= i < |REPORT_KEYS| - 1 ==> Free(facts, notes, REPORT_KEYS[i])
    requires forall k <- FACT_KEYS :: k !in Keys(facts)
    ensures x !in REPORT_KEYS + FACT_KEYS
  {
    assert REPORT_KEYS[0] == OPERATION && REPORT_KEYS[1] == SUCCESS && REPORT_KEYS[|REPORT_KEYS| - 1] == RETRYING;
    forall q | 0 <= q < |REPORT_KEYS| ensures REPORT_KEYS[q] != x {
      if 2 <= q < |REPORT_KEYS| - 1 { assert Free(facts, notes, REPORT_KEYS[q]); }
    }
  }

  /** These facts and notes keep the documented order in every report, whatever the
      session came to, exactly when they are orderly. */
  lemma {:induction false} InOrderExactlyWhenOrderly(facts: Dict<Value>, notes: Dict<Value>)
    ensures (forall v: Input :: v.facts == facts && v.notes == notes ==> InOrder(v)) <==> Orderly(facts, notes)
  {
    if Orderly(facts, notes) {
      forall v: Input | v.facts == facts && v.notes == notes ensures InOrder(v) {
        OrderlyKeeps(v);
      }
    } else {
      var v := Disordered(facts, notes);
      assert v.facts == facts && v.notes == notes && !InOrder(v);
    }
  }

  /** For one: a note named `error` on a session that worked stands behind the try it was. */
  lemma {:induction false} LateErrorNote()
    ensures var v := Plain([], [(ERROR, Text("late"))]).(attempt := Some(1));
      Before(Keys(Report(v)), ATTEMPT, ERROR) && !InOrder(v)
  {
    var v := Plain([], [(ERROR, Text("late"))]).(attempt := Some(1));
    assert REPORT_KEYS[3] == ERROR && REPORT_KEYS[9] == ATTEMPT;
    assert Keys(v.notes)[0] == ERROR;
    OutOfPlace(v, 3, 9);
  }
}
