/** The cached read (`GetEntitlementValue`) over the snapshot table, and the theorems of the
    fold restated for `CalculateBalance` itself. */
module EntitlementService {
  import opened Options
  import opened Calendar
  import opened Periods
  import opened Ledger
  import opened Sorting
  import opened Soundness
  import opened Dominance
  import opened Seeding
  import opened SnapshotCache
  import LedgerEngine

  // ---- CalculateBalance as one read of a source ----

  /** What a metered, periodic entitlement's reads are computed from. */
  function SourceOf(inp: Inputs, ent: Entitlement): Source
    requires ent.usagePeriod.Every?
  {
    Source(inp, Shifter(ent.usagePeriod.duration, 1), Shifter(ent.usagePeriod.duration, -1), ent.Anchor())
  }

  lemma {:induction false} CalculateReads(inp: Inputs, ent: Entitlement, t: Time, seed: Option<Snapshot>)
    requires WellTimed(ent) && ent.usagePeriod.Every? && WellFormed(inp)
    ensures Ready(SourceOf(inp, ent))
    ensures Calculate(inp, ent, t, seed) == Compute(SourceOf(inp, ent), t, seed)
  {
    PositiveSteps(ent.usagePeriod.duration);
    PositiveStepsBack(ent.usagePeriod.duration);
    hide Periodic, PeriodsAt, Shifter;
  }

  lemma {:induction false} CapturedIsReference(src: Source, t: Time, snap: Snapshot) returns (k: nat)
    requires Ready(src) && src.anchor <= t && snap in Compute(src, t, None).1
    ensures k > 0 && snap == RefSnap(src, k)
  {
    var ps := PeriodsAt(src.step, src.back, src.anchor, t);
    k := OfferedAt(src.inp, ps, t, None, snap);
    BeginsFresh(src.inp.grants, ps);
    ReadBoundary(src, t, k);
    ReadReference(src, t, k);
    hide PeriodsAt, WellFormed;
    assert ps[k - 1].to == ps[k].from;
  }

  lemma {:induction false} SoundReads(src: Source, t0: Time, t: Time, snap: Snapshot)
    requires Ready(src) && src.anchor <= t0 && src.anchor <= t && snap.asOf <= t
    requires snap in Compute(src, t0, None).1 && AllListed(src.inp.grants, snap)
    ensures Compute(src, t, Some(snap)).0 == Compute(src, t, None).0
    ensures exists k :: 0 < k <= |Compute(src, t, None).1|
              && Compute(src, t, None).1[k - 1] == snap
              && Compute(src, t, Some(snap)).1 == Compute(src, t, None).1[k..]
  {
    var k := CapturedIsReference(src, t0, snap);
    var ps := PeriodsAt(src.step, src.back, src.anchor, t);
    ReadReference(src, t, k);
    SeededAnswers(src.inp, ps, k, t);
    BeginsFresh(src.inp.grants, ps);
    hide Periodic, PeriodsAt, AllListed, WellFormed, Answer;
    OffersBoundary(src, t, k);
    assert Compute(src, t, None).1[k - 1] == snap;
  }

  /** A snapshot some earlier or later read captured seeds `CalculateBalance` to the replay's
      own answer and remaining snapshots, if it lists every grant live at its boundary. */
  lemma {:induction false} SnapshotSoundness(inp: Inputs, ent: Entitlement, t0: Time, t: Time, snap: Snapshot)
    requires WellTimed(ent) && ent.usagePeriod.Every? && WellFormed(inp)
    requires ent.Anchor() <= t0 && ent.Anchor() <= t && snap.asOf <= t
    requires snap in Calculate(inp, ent, t0, None).1
    requires AllListed(inp.grants, snap)
    ensures Calculate(inp, ent, t, Some(snap)).0 == Calculate(inp, ent, t, None).0
    ensures exists k :: 0 < k <= |Calculate(inp, ent, t, None).1|
              && Calculate(inp, ent, t, None).1[k - 1] == snap
              && Calculate(inp, ent, t, Some(snap)).1 == Calculate(inp, ent, t, None).1[k..]
  {
    var src := SourceOf(inp, ent);
    CalculateReads(inp, ent, t0, None);
    CalculateReads(inp, ent, t, None);
    CalculateReads(inp, ent, t, Some(snap));
    hide Calculate, WellTimed, SourceOf;
    SoundReads(src, t0, t, snap);
  }

  lemma {:induction false} ReadsExtend(src: Source, t1: Time, t2: Time)
    requires Ready(src) && src.anchor <= t1 <= t2
    ensures Compute(src, t1, None).1 <= Compute(src, t2, None).1
  {
    var first, second := Compute(src, t1, None).1, Compute(src, t2, None).1;
    var ps, qs := PeriodsAt(src.step, src.back, src.anchor, t1), PeriodsAt(src.step, src.back, src.anchor, t2);
    PeriodsExtend(src.step, src.back, src.anchor, t1, t2);
    BeginsFresh(src.inp.grants, ps);
    BeginsFresh(src.inp.grants, qs);
    assert |first| == |ps| - 1 && |second| == |qs| - 1;
    forall i | 0 <= i < |first|
      ensures first[i] == second[i]
    {
      ReadBoundary(src, t1, i + 1);
      OffersBoundary(src, t1, i + 1);
      OffersBoundary(src, t2, i + 1);
    }
  }

  /** Prefix stability: what a replay captures, every later replay captures first. */
  lemma {:induction false} SnapshotsExtend(inp: Inputs, ent: Entitlement, t1: Time, t2: Time)
    requires WellTimed(ent) && ent.usagePeriod.Every? && WellFormed(inp) && ent.Anchor() <= t1 <= t2
    ensures Calculate(inp, ent, t1, None).1 <= Calculate(inp, ent, t2, None).1
  {
    var src := SourceOf(inp, ent);
    CalculateReads(inp, ent, t1, None);
    CalculateReads(inp, ent, t2, None);
    hide Calculate, WellTimed, SourceOf;
    ReadsExtend(src, t1, t2);
  }

  /** What a snapshot holds: positive remainders of known grants, within amount and cap, not
      expired at the boundary, each grant once; and their sum as its balance. */
  lemma {:induction false} SnapshotContents(inp: Inputs, ps: seq<Period>, t: Time, snap: Snapshot)
    requires WellFormed(inp) && |ps| > 0 && snap in Periodic(inp, ps, t, None).1
    ensures exists s: seq<Active> ::
              && snap.balance == Sum(s) && |snap.perGrant| == |s| && UniqueActive(s)
              && (forall i :: 0 <= i < |s| ==> snap.perGrant[i] == GrantState(s[i].grant.id, s[i].remaining))
              && forall a :: a in s ==>
                   a.grant in inp.grants && 0 < a.remaining <= a.grant.amount
                   && (a.grant.expiresAt.Some? ==> snap.asOf < a.grant.expiresAt.value)
                   && (a.grant.rolloverMax.Some? ==> a.remaining <= a.grant.rolloverMax.value)
  {
    hide Periodic, WellFormed, StateAt, Beginning, UniqueActive, Sum, StatesOf;
    var j := OfferedAt(inp, ps, t, None, snap);
    BeginsFresh(inp.grants, ps);
    StateAtSound(inp, ps, 0, FRESH, j);
    var s := StateAt(inp, ps, 0, FRESH, j).active;
    assert snap == SnapshotOf(s, snap.asOf);
  }

  // ---- Whole histories of GetEntitlementValue and SaveSnapshots ----

  function InsertAll(rows: map<Time, Snapshot>, snaps: seq<Snapshot>): map<Time, Snapshot> {
    if snaps == [] then rows else SnapshotCache.Insert(InsertAll(rows, snaps[..|snaps| - 1]), snaps[|snaps| - 1])
  }

  /** Rows that are there stay; a boundary without a row gets the first snapshot of it, if any. */
  lemma {:induction false} FirstWriteWins(rows: map<Time, Snapshot>, snaps: seq<Snapshot>, at: Time)
    ensures var after := InsertAll(rows, snaps);
            if at in rows then at in after && after[at] == rows[at]
            else if forall i :: 0 <= i < |snaps| ==> snaps[i].asOf != at then at !in after
            else at in after
                 && exists i :: 0 <= i < |snaps| && snaps[i].asOf == at && after[at] == snaps[i]
                                && forall j :: 0 <= j < i ==> snaps[j].asOf != at
  {
    if snaps != [] {
      var front, last := snaps[..|snaps| - 1], snaps[|snaps| - 1];
      FirstWriteWins(rows, front, at);
      assert forall i :: 0 <= i < |front| ==> front[i] == snaps[i];
      var before := InsertAll(rows, front);
      if at !in rows && at in before {
        var i :| 0 <= i < |front| && front[i].asOf == at && before[at] == front[i]
                 && forall j :: 0 <= j < i ==> front[j].asOf != at;
        assert snaps[i] == front[i];
      }
    }
  }

  /** A value asked for, or what some earlier answer captured saved at last, perhaps again. */
  datatype Request = Value(t: Time) | Save(read: nat)

  /** The entitlement's rows, and what every answer so far has handed to a goroutine for saving. */
  datatype History = History(rows: map<Time, Snapshot>, captured: seq<seq<Snapshot>>)

  ghost function Serve(inp: Inputs, ent: Entitlement, requests: seq<Request>): History
    requires WellTimed(ent)
  {
    if requests == [] then History(map[], [])
    else
      var h := Serve(inp, ent, requests[..|requests| - 1]);
      match requests[|requests| - 1]
      case Value(t) => h.(captured := h.captured + [Calculate(inp, ent, t, Latest(h.rows, t)).1])
      case Save(i) => if i < |h.captured| then h.(rows := InsertAll(h.rows, h.captured[i])) else h
  }

  /** What a value asked for at `t` is answered with after a history of requests. */
  ghost function Served(inp: Inputs, ent: Entitlement, requests: seq<Request>, t: Time): BalanceResult
    requires WellTimed(ent)
  {
    Calculate(inp, ent, t, Latest(Serve(inp, ent, requests).rows, t)).0
  }

  ghost predicate Metered(inp: Inputs, ent: Entitlement) {
    WellTimed(ent) && ent.usagePeriod.Every? && WellFormed(inp)
  }

  function Stores(snaps: seq<Snapshot>): seq<Op> {
    seq(|snaps|, i requires 0 <= i < |snaps| => Store(snaps[i]))
  }

  lemma {:induction false} PlayStore(src: Source, ops: seq<Op>, snap: Snapshot)
    requires Ready(src) && snap in Play(src, ops).offered
    ensures Play(src, ops + [Store(snap)])
            == Play(src, ops).(rows := SnapshotCache.Insert(Play(src, ops).rows, snap))
  {
  }

  lemma {:induction false} StoresPush(ops: seq<Op>, snaps: seq<Snapshot>)
    requires snaps != []
    ensures ops + Stores(snaps) == ops + Stores(snaps[..|snaps| - 1]) + [Store(snaps[|snaps| - 1])]
  {
  }

  /** Saving a batch is storing its snapshots one by one. */
  lemma {:induction false} StoresInsert(src: Source, ops: seq<Op>, snaps: seq<Snapshot>)
    requires Ready(src) && forall s :: s in snaps ==> s in Play(src, ops).offered
    ensures Play(src, ops + Stores(snaps)) == Play(src, ops).(rows := InsertAll(Play(src, ops).rows, snaps))
  {
    if snaps == [] {
      assert ops + Stores(snaps) == ops;
    } else {
      var front, last := snaps[..|snaps| - 1], snaps[|snaps| - 1];
      hide Play, SnapshotCache.Insert, Ready, Stores;
      assert forall s :: s in front ==> s in snaps;
      assert last in snaps;
      StoresInsert(src, ops, front);
      StoresPush(ops, snaps);
      PlayStore(src, ops + Stores(front), last);
    }
  }

  /** Same rows, and nothing captured that was not offered. */
  ghost predicate Mirrors(h: History, c: Cache) {
    h.rows == c.rows && forall i, s :: 0 <= i < |h.captured| && s in h.captured[i] ==> s in c.offered
  }

  lemma {:induction false} ValueIsRead(inp: Inputs, ent: Entitlement, requests: seq<Request>, before: seq<Op>, t: Time)
    requires Metered(inp, ent) && Ready(SourceOf(inp, ent))
    requires requests != [] && requests[|requests| - 1] == Value(t)
    requires Mirrors(Serve(inp, ent, requests[..|requests| - 1]), Play(SourceOf(inp, ent), before))
    ensures Mirrors(Serve(inp, ent, requests), Play(SourceOf(inp, ent), before + [Read(t)]))
  {
  }

  lemma {:induction false} SaveIsStores(inp: Inputs, ent: Entitlement, requests: seq<Request>, before: seq<Op>, i: nat)
    requires Metered(inp, ent) && Ready(SourceOf(inp, ent))
    requires requests != [] && requests[|requests| - 1] == Save(i)
    requires Mirrors(Serve(inp, ent, requests[..|requests| - 1]), Play(SourceOf(inp, ent), before))
    ensures var h := Serve(inp, ent, requests[..|requests| - 1]);
            Mirrors(Serve(inp, ent, requests),
                    Play(SourceOf(inp, ent), if i < |h.captured| then before + Stores(h.captured[i]) else before))
  {
    var h := Serve(inp, ent, requests[..|requests| - 1]);
    hide Compute, Calculate, SourceOf, Ready, InsertAll;
    if i < |h.captured| {
      StoresInsert(SourceOf(inp, ent), before, h.captured[i]);
    }
  }

  /** Every history is a run of the cache: same rows, nothing captured that was not offered. */
  lemma {:induction false} HistoryIsRun(inp: Inputs, ent: Entitlement, requests: seq<Request>) returns (ops: seq<Op>)
    requires Metered(inp, ent)
    ensures Ready(SourceOf(inp, ent))
    ensures Mirrors(Serve(inp, ent, requests), Play(SourceOf(inp, ent), ops))
  {
    var src := SourceOf(inp, ent);
    CalculateReads(inp, ent, 0, None);
    if requests == [] {
      ops := [];
    } else {
      var front, last := requests[..|requests| - 1], requests[|requests| - 1];
      var before := HistoryIsRun(inp, ent, front);
      hide Serve, Play, SourceOf, Metered, Ready;
      match last
      case Value(t) =>
        ValueIsRead(inp, ent, requests, before, t);
        ops := before + [Read(t)];
      case Save(i) =>
        var h := Serve(inp, ent, front);
        ops := if i < |h.captured| then before + Stores(h.captured[i]) else before;
        SaveIsStores(inp, ent, requests, before, i);
    }
  }

  /** While no boundary drains an unexpired grant, after any history of values and saves every
      value is the full replay's. */
  lemma {:induction false} ServedCoherently(inp: Inputs, ent: Entitlement, requests: seq<Request>, t: Time)
    requires Metered(inp, ent) && NeverDrained(SourceOf(inp, ent)) && ent.Anchor() <= t
    ensures Served(inp, ent, requests, t) == Calculate(inp, ent, t, None).0
  {
    var src := SourceOf(inp, ent);
    var ops := HistoryIsRun(inp, ent, requests);
    var rows := Serve(inp, ent, requests).rows;
    CalculateReads(inp, ent, t, Latest(rows, t));
    CalculateReads(inp, ent, t, None);
    assert src.anchor == ent.Anchor();
    hide Calculate, Compute, NeverDrained, SourceOf, Play, Serve, Latest, Ready;
    CacheIsCoherent(src, ops, t);
  }

  /** Whatever boundaries drain, no value understates the replay's. */
  lemma {:induction false} ServedGenerously(inp: Inputs, ent: Entitlement, requests: seq<Request>, t: Time)
    requires Metered(inp, ent) && Monotone(SourceOf(inp, ent)) && ent.Anchor() <= t
    ensures AtLeast(Served(inp, ent, requests, t), Calculate(inp, ent, t, None).0)
  {
    var src := SourceOf(inp, ent);
    var ops := HistoryIsRun(inp, ent, requests);
    var rows := Serve(inp, ent, requests).rows;
    CalculateReads(inp, ent, t, Latest(rows, t));
    CalculateReads(inp, ent, t, None);
    assert src.anchor == ent.Anchor();
    hide Calculate, Compute, Monotone, SourceOf, Play, Serve, Latest, Ready, AtLeast;
    CacheNeverUnderstates(src, ops, t);
  }

  lemma {:induction false} InsertAllHolds(rows: map<Time, Snapshot>, snaps: seq<Snapshot>)
    ensures forall a :: a in InsertAll(rows, snaps) ==>
              (a in rows && InsertAll(rows, snaps)[a] == rows[a])
              || (InsertAll(rows, snaps)[a] in snaps && InsertAll(rows, snaps)[a].asOf == a)
    ensures forall s :: s in snaps ==> s.asOf in InsertAll(rows, snaps)
  {
    if snaps != [] {
      InsertAllHolds(rows, snaps[..|snaps| - 1]);
      var front, last := snaps[..|snaps| - 1], snaps[|snaps| - 1];
      assert forall s :: s in snaps <==> s in front || s == last;
    }
  }

  lemma {:induction false} SavedRow(src: Source, k: nat, snap: Snapshot)
    requires Ready(src) && k > 0 && snap in Compute(src, Boundary(src, k), None).1
    ensures snap.asOf <= Boundary(src, k) && (snap.asOf == Boundary(src, k) ==> snap == RefSnap(src, k))
  {
    IterateIncreases(src.step, src.anchor, 0, k);
    EarlyReadsOfferEarly(src, Boundary(src, k), None, snap);
    hide Compute, RefSnap, InsertAll;
    var j := CapturedIsReference(src, Boundary(src, k), snap);
    if j < k {
      IterateIncreases(src.step, src.anchor, j, k);
    } else {
      IterateIncreases(src.step, src.anchor, k, j);
    }
  }

  /** After one read at a boundary and its save, the row of that boundary is the reference's. */
  lemma {:induction false} SavedBoundary(src: Source, k: nat)
    requires Ready(src) && k > 0
    ensures var rows := InsertAll(map[], Compute(src, Boundary(src, k), None).1);
            Latest(rows, Boundary(src, k)) == Some(RefSnap(src, k))
  {
    var t := Boundary(src, k);
    var snaps := Compute(src, t, None).1;
    var rows := InsertAll(map[], snaps);
    IterateIncreases(src.step, src.anchor, 0, k);
    OffersBoundary(src, t, k);
    InsertAllHolds(map[], snaps);
    hide Compute, InsertAll, RefState, Ready;
    assert RefSnap(src, k) in snaps && t in rows;
    forall a | a in rows
      ensures a <= t && rows[a].asOf == a && (a == t ==> rows[a] == RefSnap(src, k))
    {
      SavedRow(src, k, rows[a]);
    }
    assert IsLatest(rows, t, t);
  }

  lemma {:induction false} SavedOnce(inp: Inputs, ent: Entitlement, t: Time)
    requires WellTimed(ent)
    ensures Serve(inp, ent, [Value(t), Save(0)]).rows == InsertAll(map[], Calculate(inp, ent, t, None).1)
  {
    hide Calculate, InsertAll, WellTimed;
    var requests := [Value(t), Save(0)];
    assert requests[..1] == [Value(t)] && [Value(t)][..0] == [];
    assert Latest(map[], t) == None;
    assert Serve(inp, ent, [Value(t)]) == History(map[], [Calculate(inp, ent, t, None).1]);
  }

  lemma {:induction false} DrainServed(inp: Inputs, ent: Entitlement, k: nat)
    requires Metered(inp, ent) && k > 0 && forall a: Time :: inp.usage(a, a) == 0
    requires !AllListed(inp.grants, RefSnap(SourceOf(inp, ent), k))
    ensures var t := Boundary(SourceOf(inp, ent), k);
            && ent.Anchor() <= t
            && Served(inp, ent, [Value(t), Save(0)], t).balance > Calculate(inp, ent, t, None).0.balance
  {
    var src := SourceOf(inp, ent);
    var t := Boundary(src, k);
    CalculateReads(inp, ent, t, None);
    CalculateReads(inp, ent, t, Some(RefSnap(src, k)));
    IterateIncreases(src.step, src.anchor, 0, k);
    SavedBoundary(src, k);
    DrainShows(src, k);
    SavedOnce(inp, ent, t);
    hide Calculate, Compute, SourceOf, RefSnap, InsertAll, Ready, AllListed, WellTimed, Serve, Boundary, Latest;
  }

  lemma {:induction false} ExposingHistory(inp: Inputs, ent: Entitlement) returns (requests: seq<Request>, t: Time)
    requires Metered(inp, ent) && forall a: Time :: inp.usage(a, a) == 0
    requires Ready(SourceOf(inp, ent)) && !NeverDrained(SourceOf(inp, ent))
    ensures ent.Anchor() <= t && Served(inp, ent, requests, t) != Calculate(inp, ent, t, None).0
  {
    var src := SourceOf(inp, ent);
    hide Served, Calculate, RefSnap, AllListed, Boundary, Ready, Metered, WellTimed;
    var k: nat :| k > 0 && !AllListed(src.inp.grants, RefSnap(src, k));
    DrainServed(inp, ent, k);
    t := Boundary(src, k);
    requests := [Value(t), Save(0)];
  }

  /** Exactly: every value of every history is the replay's if and only if no boundary of the
      full replay drains an unexpired grant. */
  lemma {:induction false} ServedIffNeverDrained(inp: Inputs, ent: Entitlement)
    requires Metered(inp, ent) && forall a: Time :: inp.usage(a, a) == 0
    ensures Ready(SourceOf(inp, ent))
    ensures (forall requests, t: Time :: ent.Anchor() <= t ==>
               Served(inp, ent, requests, t) == Calculate(inp, ent, t, None).0)
            <==> NeverDrained(SourceOf(inp, ent))
  {
    var src := SourceOf(inp, ent);
    CalculateReads(inp, ent, 0, None);
    if NeverDrained(src) {
      forall requests, t: Time | ent.Anchor() <= t
        ensures Served(inp, ent, requests, t) == Calculate(inp, ent, t, None).0
      {
        ServedCoherently(inp, ent, requests, t);
      }
    } else {
      hide Served, Calculate, NeverDrained, SourceOf;
      var requests, t := ExposingHistory(inp, ent);
    }
  }

  lemma {:induction false} Member<T>(s: set<T>) returns (x: T)
    requires s != {}
    ensures x in s
  {
    x :| x in s;
  }

  // ---- The snapshot table and the cached read ----

  datatype EntitlementValue = EntitlementValue(
    hasAccess: bool, balance: Option<int>, usage: Option<int>, overage: Option<int>)

  datatype LookupError = NotFound | Internal

  /** A feature as looked up: boolean, metered, or metered by a meter that cannot be read. */
  datatype Feature = Boolean | MeteredBy(meter: Meter) | Unreadable

  class SnapshotTable {
    /** Rows by entitlement and boundary. */
    var rows: map<Id, map<Time, Snapshot>>

    constructor ()
      ensures forall ent: Id :: RowsOf(ent) == map[]
    {
      rows := map[];
    }

    function RowsOf(ent: Id): map<Time, Snapshot>
      reads this
    {
      if ent in rows then rows[ent] else map[]
    }

    /** GetLatestSnapshot: the latest boundary at or before `before`. */
    method GetLatestSnapshot(ent: Id, before: Time) returns (seed: Option<Snapshot>)
      ensures seed == Latest(RowsOf(ent), before)
    {
      var all := RowsOf(ent);
      var left: set<Time>, best: Option<Time> := all.Keys, None;
      while left != {}
        invariant left <= all.Keys
        invariant best.None? ==> forall k :: k in all && k <= before ==> k in left
        invariant best.Some? ==> best.value in all && best.value <= before
                                 && forall k :: k in all && k <= before && k > best.value ==> k in left
        decreases |left|
      {
        ghost var some := Member(left);
        var k :| k in left;
        left := left - {k};
        if k <= before && (best.None? || best.value < k) {
          best := Some(k);
        }
      }
      if best.None? {
        return None;
      }
      assert IsLatest(all, before, best.value);
      return Some(all[best.value]);
    }

    /** SaveSnapshots: row by row, first write wins, other entitlements untouched. */
    method SaveSnapshots(snaps: seq<Snapshot>, ent: Id)
      modifies this
      ensures RowsOf(ent) == InsertAll(old(RowsOf(ent)), snaps)
      ensures forall other: Id :: other != ent ==> RowsOf(other) == old(RowsOf(other))
    {
      for i := 0 to |snaps|
        invariant RowsOf(ent) == InsertAll(old(RowsOf(ent)), snaps[..i])
        invariant forall other: Id :: other != ent ==> RowsOf(other) == old(RowsOf(other))
      {
        assert snaps[..i + 1][..i] == snaps[..i];
        rows := rows[ent := SnapshotCache.Insert(RowsOf(ent), snaps[i])];
      }
      assert snaps[..|snaps|] == snaps;
    }

    /** GetEntitlementValue, given what the lookups found: an unknown customer or feature is an
        error; no entitlement, no access; a boolean feature is access; a metered one is computed
        from the latest snapshot, then held against the cost. The captured snapshots are handed
        back for saving, which the handler does in the background. */
    method GetEntitlementValue(customer: Option<Id>, feature: Option<Feature>, ent: Option<Entitlement>,
                               grants: seq<Grant>, t: Time, cost: Option<int>)
      returns (value: Result<EntitlementValue, LookupError>, captured: seq<Snapshot>)
      requires ent.Some? ==> WellTimed(ent.value)
      ensures (customer.None? || feature.None?) ==> value == Err(NotFound) && captured == []
      ensures customer.Some? && feature.Some? && ent.None? ==>
                value == Ok(EntitlementValue(false, None, None, None)) && captured == []
      ensures customer.Some? && feature.Some? && ent.Some? && feature.value.Boolean? ==>
                value == Ok(EntitlementValue(true, None, None, None)) && captured == []
      ensures customer.Some? && feature.Some? && ent.Some? && feature.value.Unreadable? ==>
                value == Err(Internal) && captured == []
      ensures customer.Some? && feature.Some? && ent.Some? && feature.value.MeteredBy? ==>
                var seed := Latest(RowsOf(ent.value.id), t);
                var (res, snaps) := Calculate(Inputs(grants, feature.value.meter, StableSort), ent.value, t, seed);
                && captured == snaps
                && value == Ok(EntitlementValue(res.hasAccess && (cost.Some? ==> cost.value <= res.balance),
                                                Some(res.balance), Some(res.usage), Some(res.overage)))
    {
      hide Calculate;
      if customer.None? || feature.None? {
        return Err(NotFound), [];
      }
      if ent.None? {
        return Ok(EntitlementValue(false, None, None, None)), [];
      }
      if feature.value.Boolean? {
        return Ok(EntitlementValue(true, None, None, None)), [];
      }
      if feature.value.Unreadable? {
        return Err(Internal), [];
      }
      var seed := GetLatestSnapshot(ent.value.id, t);
      var res, newSnaps := LedgerEngine.CalculateBalance(t, ent.value, grants, feature.value.meter, seed);
      var access := res.hasAccess;
      if cost.Some? && res.balance < cost.value {
        access := false;
      }
      value := Ok(EntitlementValue(access, Some(res.balance), Some(res.usage), Some(res.overage)));
      captured := newSnaps;
    }
  }
}
