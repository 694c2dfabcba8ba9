/** The usage log: idempotent ingestion and half-open usage windows
    (`IngestEvent` and the count and sum branches of `FetchUsage`). */
module UsageEvents {
  import opened Options
  import opened Calendar
  import opened Periods
  import opened Ledger
  import opened Sequences

  /** `value` is the meter's property of the payload, absent when the payload lacks it. */
  datatype Event = Event(id: Id, customer: Id, kind: Id, time: Time, value: Option<int>)

  datatype Aggregation = CountOf | SumOf(hasProperty: bool)

  /** Which events of a customer a meter looks at, and how it adds them up. */
  datatype MeterRow = MeterRow(kind: Id, aggregation: Aggregation)

  // ---- Windows ----

  predicate Counts(e: Event, customer: Id, m: MeterRow, from: Time, to: Time) {
    e.customer == customer && e.kind == m.kind && from <= e.time < to
  }

  function Contribution(e: Event, m: MeterRow): int {
    if m.aggregation.CountOf? then 1 else if e.value.Some? then e.value.value else 0
  }

  function Usage(log: seq<Event>, customer: Id, m: MeterRow, from: Time, to: Time): int {
    if log == [] then 0
    else
      var e := log[|log| - 1];
      Usage(log[..|log| - 1], customer, m, from, to)
      + (if Counts(e, customer, m, from, to) then Contribution(e, m) else 0)
  }

  /** One event more adds one to a count, or its value, if it has any, to a sum; but only an event
      of the customer and the kind, inside the half-open window. */
  lemma {:induction false} OneEventMore(log: seq<Event>, e: Event, customer: Id, m: MeterRow, from: Time, to: Time)
    ensures Usage([], customer, m, from, to) == 0
    ensures var before, after := Usage(log, customer, m, from, to), Usage(log + [e], customer, m, from, to);
            if e.customer != customer || e.kind != m.kind || e.time < from || to <= e.time then after == before
            else if m.aggregation.CountOf? then after == before + 1
            else if e.value.Some? then after == before + e.value.value
            else after == before
  {
  }

  /** The numbers of the customer's events of a kind in a half-open window. */
  function Matching(log: seq<Event>, customer: Id, kind: Id, from: Time, to: Time): set<nat> {
    set i: nat | i < |log| && log[i].customer == customer && log[i].kind == kind && from <= log[i].time < to
  }

  lemma {:induction false} MatchingMore(log: seq<Event>, e: Event, customer: Id, kind: Id, from: Time, to: Time)
    ensures Matching([], customer, kind, from, to) == {}
    ensures var before := Matching(log, customer, kind, from, to);
            && |log| !in before
            && Matching(log + [e], customer, kind, from, to)
               == if e.customer == customer && e.kind == kind && from <= e.time < to then before + {|log|} else before
  {
    assert forall i :: 0 <= i < |log| ==> (log + [e])[i] == log[i];
  }

  /** A count is the number of those events. */
  lemma {:induction false} UsageCounts(log: seq<Event>, customer: Id, m: MeterRow, from: Time, to: Time)
    requires m.aggregation.CountOf?
    ensures Usage(log, customer, m, from, to) == |Matching(log, customer, m.kind, from, to)|
  {
    hide Usage, Matching;
    if log == [] {
      OneEventMore([], Event(0, 0, 0, 0, None), customer, m, from, to);
      MatchingMore([], Event(0, 0, 0, 0, None), customer, m.kind, from, to);
    } else {
      var front, last := log[..|log| - 1], log[|log| - 1];
      UsageCounts(front, customer, m, from, to);
      OneEventMore(front, last, customer, m, from, to);
      MatchingMore(front, last, customer, m.kind, from, to);
      assert front + [last] == log;
    }
  }

  /** Two adjacent windows add up to the window they make together. */
  lemma {:induction false} WindowsAdd(log: seq<Event>, customer: Id, m: MeterRow, a: Time, b: Time, c: Time)
    requires a <= b <= c
    ensures Usage(log, customer, m, a, b) + Usage(log, customer, m, b, c) == Usage(log, customer, m, a, c)
  {
    if log != [] {
      WindowsAdd(log[..|log| - 1], customer, m, a, b, c);
    }
  }

  /** An empty window holds nothing. */
  lemma {:induction false} EmptyWindow(log: seq<Event>, customer: Id, m: MeterRow, a: Time)
    ensures Usage(log, customer, m, a, a) == 0
  {
    if log != [] {
      EmptyWindow(log[..|log| - 1], customer, m, a);
    }
  }

  /** Usage fetched for the first `n` periods, each over its whole window. */
  function FetchedOver(log: seq<Event>, customer: Id, m: MeterRow, periods: seq<Period>, n: nat): int
    requires n <= |periods|
  {
    if n == 0 then 0
    else FetchedOver(log, customer, m, periods, n - 1) + Usage(log, customer, m, periods[n - 1].from, periods[n - 1].to)
  }

  /** The windows a full replay fetches tile the span from the first period to `t`: their
      usages add up to the usage over the span, so each event counts once. */
  lemma {:induction false} WindowsTile(log: seq<Event>, customer: Id, m: MeterRow, periods: seq<Period>, n: nat,
      t: Time)
    requires Contiguous(periods) && n < |periods| && periods[n].from <= t
    ensures FetchedOver(log, customer, m, periods, n) + Usage(log, customer, m, periods[n].from, t)
            == Usage(log, customer, m, periods[0].from, t)
  {
    if n > 0 {
      var p := periods[n - 1];
      assert p.to == periods[n].from;
      WindowsTile(log, customer, m, periods, n - 1, t);
      WindowsAdd(log, customer, m, p.from, p.to, t);
    }
  }

  // ---- Ingestion ----

  predicate Known(log: seq<Event>, id: Id) {
    exists e :: e in log && e.id == id
  }

  /** `ON CONFLICT(id) DO NOTHING`. */
  function Record(log: seq<Event>, e: Event): seq<Event> {
    if Known(log, e.id) then log else log + [e]
  }

  function RecordAll(es: seq<Event>): seq<Event> {
    if es == [] then [] else Record(RecordAll(es[..|es| - 1]), es[|es| - 1])
  }

  predicate UniqueEvents(log: seq<Event>) {
    forall i, j :: 0 <= i < j < |log| ==> log[i].id != log[j].id
  }

  /** The log holds delivered events only, one for every delivered id. */
  lemma {:induction false} RecordsEachIdOnce(es: seq<Event>)
    ensures UniqueEvents(RecordAll(es))
    ensures forall e :: e in RecordAll(es) ==> e in es
    ensures forall e :: e in es ==> Known(RecordAll(es), e.id)
  {
    if es != [] {
      var front, last := es[..|es| - 1], es[|es| - 1];
      RecordsEachIdOnce(front);
      var before, after := RecordAll(front), RecordAll(es);
      forall e | e in es
        ensures Known(after, e.id)
      {
        if e in front {
          var known :| known in before && known.id == e.id;
          assert known in after;
        } else {
          assert e == last;
          assert !Known(before, last.id) ==> last in after;
        }
      }
      if !Known(before, last.id) {
        forall i | 0 <= i < |before|
          ensures before[i].id != last.id
        {
          assert before[i] in before;
        }
      }
    }
  }

  /** Delivery `i` is the first one of its id. */
  predicate FirstDelivery(es: seq<Event>, i: nat)
    requires i < |es|
  {
    forall j :: 0 <= j < i ==> es[j].id != es[i].id
  }

  /** The first deliveries among the first `n`, in order. */
  function FirstDeliveries(es: seq<Event>, n: nat): seq<Event>
    requires n <= |es|
  {
    if n == 0 then []
    else if FirstDelivery(es, n - 1) then FirstDeliveries(es, n - 1) + [es[n - 1]]
    else FirstDeliveries(es, n - 1)
  }

  lemma {:induction false} KnownIfRedelivered(es: seq<Event>, i: nat)
    requires i < |es|
    ensures Known(RecordAll(es[..i]), es[i].id) <==> !FirstDelivery(es, i)
  {
    RecordsEachIdOnce(es[..i]);
    hide RecordAll;
    if j :| 0 <= j < i && es[j].id == es[i].id {
      assert es[..i][j] in es[..i];
    } else {
      forall e | e in RecordAll(es[..i])
        ensures e.id != es[i].id
      {
        var j :| 0 <= j < i && es[..i][j] == e;
      }
    }
  }

  /** Whatever is delivered, the log is the first delivery of every id, in order. */
  lemma {:induction false} LogIsFirstDeliveries(es: seq<Event>, n: nat)
    requires n <= |es|
    ensures RecordAll(es[..n]) == FirstDeliveries(es, n)
  {
    if n > 0 {
      assert es[..n][..n - 1] == es[..n - 1];
      LogIsFirstDeliveries(es, n - 1);
      KnownIfRedelivered(es, n - 1);
      hide Known, FirstDelivery;
    }
  }

  /** An id always names the same event. */
  predicate OneEventPerId(es: seq<Event>) {
    forall e, f :: e in es && f in es && e.id == f.id ==> e == f
  }

  lemma {:induction false} LogHasAll(es: seq<Event>)
    requires OneEventPerId(es)
    ensures NoRepeats(RecordAll(es))
    ensures forall e :: e in RecordAll(es) <==> e in es
  {
    RecordsEachIdOnce(es);
    forall e | e in es
      ensures e in RecordAll(es)
    {
      var known :| known in RecordAll(es) && known.id == e.id;
    }
  }

  lemma {:induction false} UsageAppend(a: seq<Event>, b: seq<Event>, customer: Id, m: MeterRow, from: Time, to: Time)
    ensures Usage(a + b, customer, m, from, to) == Usage(a, customer, m, from, to) + Usage(b, customer, m, from, to)
  {
    if b == [] {
      assert a + b == a;
    } else {
      UsageAppend(a, b[..|b| - 1], customer, m, from, to);
      assert (a + b)[..|a + b| - 1] == a + b[..|b| - 1];
    }
  }

  lemma {:induction false} UsagePermutes(a: seq<Event>, b: seq<Event>, customer: Id, m: MeterRow, from: Time, to: Time)
    requires multiset(a) == multiset(b)
    ensures Usage(a, customer, m, from, to) == Usage(b, customer, m, from, to)
  {
    if a == [] {
      SameSize(a, b);
    } else {
      var k := Match(a, b);
      UsagePermutes(a[..|a| - 1], b[..k] + b[k + 1..], customer, m, from, to);
      UsageAppend(b[..k], b[k + 1..], customer, m, from, to);
      UsageAppend(b[..k], [b[k]], customer, m, from, to);
      UsageAppend(b[..k] + [b[k]], b[k + 1..], customer, m, from, to);
      assert b == b[..k] + [b[k]] + b[k + 1..];
      assert [b[k]][..0] == [];
    }
  }

  /** Redelivery and reordering are harmless: two delivery histories of the same events,
      each event any number of times, give the same usage in every window. */
  lemma {:induction false} RedeliveryHarmless(a: seq<Event>, b: seq<Event>, customer: Id, m: MeterRow, from: Time,
                                              to: Time)
    requires OneEventPerId(a) && forall e :: e in a <==> e in b
    ensures Usage(RecordAll(a), customer, m, from, to) == Usage(RecordAll(b), customer, m, from, to)
  {
    LogHasAll(a);
    LogHasAll(b);
    SameElementsPermute(RecordAll(a), RecordAll(b));
    UsagePermutes(RecordAll(a), RecordAll(b), customer, m, from, to);
  }

  // ---- The meter a balance is computed with ----

  /** `GetEntitlementValue`'s closure over `FetchUsage`, which drops the error of a sum meter
      without a value property and reads it as no usage. */
  function MeterOf(log: seq<Event>, customer: Id, m: MeterRow): Meter {
    (from: Time, to: Time) => if m.aggregation == SumOf(false) then 0 else Usage(log, customer, m, from, to)
  }

  lemma {:induction false} UsageNonNegative(log: seq<Event>, customer: Id, m: MeterRow, from: Time, to: Time)
    requires m.aggregation.CountOf? || forall e :: e in log && e.value.Some? ==> e.value.value >= 0
    ensures Usage(log, customer, m, from, to) >= 0
  {
    if log != [] {
      assert log[|log| - 1] in log;
      UsageNonNegative(log[..|log| - 1], customer, m, from, to);
    }
  }

  /** The meter meets what the balance theorems ask: nothing in an empty window, and never
      negative unless a summed property is. */
  lemma {:induction false} MeterIsUsable(log: seq<Event>, customer: Id, m: MeterRow)
    ensures forall a: Time :: MeterOf(log, customer, m)(a, a) == 0
    ensures (m.aggregation.CountOf? || forall e :: e in log && e.value.Some? ==> e.value.value >= 0) ==>
              forall a, b :: MeterOf(log, customer, m)(a, b) >= 0
  {
    forall a: Time ensures MeterOf(log, customer, m)(a, a) == 0 { EmptyWindow(log, customer, m, a); }
    if m.aggregation.CountOf? || forall e :: e in log && e.value.Some? ==> e.value.value >= 0 {
      forall a: Time, b: Time ensures MeterOf(log, customer, m)(a, b) >= 0 { UsageNonNegative(log, customer, m, a, b); }
    }
  }

  // ---- The table ----

  class EventLog {
    var events: seq<Event>

    constructor ()
      ensures events == RecordAll([])
    {
      events := [];
    }

    /** `IngestEvent`. */
    method IngestEvent(e: Event)
      modifies this
      ensures events == Record(old(events), e)
    {
      var known := false;
      for i := 0 to |events|
        invariant known <==> Known(events[..i], e.id)
      {
        assert events[..i + 1] == events[..i] + [events[i]];
        if events[i].id == e.id {
          known := true;
        }
      }
      assert events[..|events|] == events;
      if !known {
        events := events + [e];
      }
    }

    /** `FetchUsage` for count and sum meters. */
    method FetchUsage(customer: Id, m: MeterRow, from: Time, to: Time) returns (usage: Result<int, string>)
      ensures usage.Ok? <==> m.aggregation != SumOf(false)
      ensures usage.Ok? ==> usage.value == Usage(events, customer, m, from, to)
      ensures usage.Ok? ==> usage.value == MeterOf(events, customer, m)(from, to)
    {
      if m.aggregation == SumOf(false) {
        return Err("aggregation requires value_property");
      }
      var total := 0;
      for i := 0 to |events|
        invariant total == Usage(events[..i], customer, m, from, to)
      {
        assert events[..i + 1][..i] == events[..i];
        if Counts(events[i], customer, m, from, to) {
          total := total + Contribution(events[i], m);
        }
      }
      assert events[..|events|] == events;
      usage := Ok(total);
    }
  }
}
