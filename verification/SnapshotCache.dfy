/** Reads that seed themselves from stored snapshots and offer new ones to be stored:
    whole runs of `GetEntitlementValue` with `GetLatestSnapshot` and `SaveSnapshots`
    over the rows of one entitlement. */
module SnapshotCache {
  import opened Options
  import opened Calendar
  import opened Periods
  import opened Ledger
  import opened Soundness
  import opened Dominance
  import opened Seeding
  import opened Drained

  /** The inputs held fixed while the cache is in use. */
  datatype Source = Source(inp: Inputs, step: Stepper, back: Stepper, anchor: Time)

  ghost predicate Ready(src: Source) {
    WellFormed(src.inp) && Advances(src.step) && Retreats(src.back)
  }

  /** One read at `t`, seeded or not. */
  ghost function Compute(src: Source, t: Time, seed: Option<Snapshot>): (BalanceResult, seq<Snapshot>)
    requires Ready(src)
  {
    Periodic(src.inp, PeriodsAt(src.step, src.back, src.anchor, t), t, seed)
  }

  // ---- The reference: boundaries counted from the anchor ----

  function Boundary(src: Source, k: nat): Time { Iterate(src.step, src.anchor, k) }

  function RefState(src: Source, k: nat): State {
    StateAt(src.inp, Chain(src.step, src.anchor, k), 0, FRESH, k)
  }

  /** The snapshot a full replay captures at the k-th boundary. */
  function RefSnap(src: Source, k: nat): Snapshot {
    SnapshotOf(RefState(src, k).active, Boundary(src, k))
  }

  /** Any read from the anchor on goes through the same boundaries and the same states. */
  lemma {:induction false} ReadReference(src: Source, t: Time, k: nat)
    requires Ready(src) && src.anchor <= t && Boundary(src, k) <= t
    ensures var ps := PeriodsAt(src.step, src.back, src.anchor, t);
            && k < |ps| && Contiguous(ps) && ps[k].from == Boundary(src, k)
            && StateAt(src.inp, ps, 0, FRESH, k) == RefState(src, k)
  {
    var count := Count(src.step, src.anchor, t, 0);
    var ps := PeriodsAt(src.step, src.back, src.anchor, t);
    ChainContiguous(src.step, src.anchor, count);
    if count <= k {
      IterateIncreases(src.step, src.anchor, count, k);
    }
    ChainPrefix(src.step, src.anchor, k, count);
    StateAtPrefix(src.inp, ps, Chain(src.step, src.anchor, k), 0, FRESH, k);
  }

  lemma {:induction false} ReadBoundary(src: Source, t: Time, j: nat)
    requires Ready(src) && src.anchor <= t && j < |PeriodsAt(src.step, src.back, src.anchor, t)|
    ensures Boundary(src, j) <= t
  {
    var count := Count(src.step, src.anchor, t, 0);
    IterateIncreases(src.step, src.anchor, j, count - 1);
  }

  // ---- Stored rows ----

  /** The rows of one entitlement by boundary, and every snapshot some read has handed to a
      writer. A writer may store what it was handed at any later time, again and again,
      or never, row by row. */
  datatype Cache = Cache(rows: map<Time, Snapshot>, offered: set<Snapshot>)

  const EMPTY := Cache(map[], {})

  datatype Op = Read(t: Time) | Store(snap: Snapshot)

  /** `ON CONFLICT DO NOTHING`: the first write of a boundary wins. */
  function Insert(rows: map<Time, Snapshot>, snap: Snapshot): map<Time, Snapshot> {
    if snap.asOf in rows then rows else rows[snap.asOf := snap]
  }

  ghost predicate IsLatest(rows: map<Time, Snapshot>, t: Time, k: Time) {
    k in rows && k <= t && forall j :: j in rows && j <= t ==> j <= k
  }

  lemma {:induction false} LatestExists(rows: map<Time, Snapshot>, t: Time, some: Time)
    requires some in rows && some <= t
    ensures exists k :: IsLatest(rows, t, k)
    decreases |rows|
  {
    var rest := rows - {some};
    assert rows.Keys == rest.Keys + {some};
    if j :| j in rest && j <= t {
      LatestExists(rest, t, j);
      var other :| IsLatest(rest, t, other);
      assert IsLatest(rows, t, if other > some then other else some);
    } else {
      assert IsLatest(rows, t, some);
    }
  }

  /** `GetLatestSnapshot`: the row with the latest boundary at or before `t`. */
  ghost function Latest(rows: map<Time, Snapshot>, t: Time): (seed: Option<Snapshot>)
    ensures seed.None? <==> forall j :: j in rows ==> j > t
    ensures seed.Some? ==> exists k :: IsLatest(rows, t, k) && seed.value == rows[k]
  {
    if exists some :: some in rows && some <= t then
      assert exists k :: IsLatest(rows, t, k) by {
        var some :| some in rows && some <= t;
        LatestExists(rows, t, some);
      }
      var k :| IsLatest(rows, t, k);
      Some(rows[k])
    else None
  }

  /** One step of the system: a read offers what it captured; a writer stores what was offered. */
  ghost function Apply(src: Source, c: Cache, op: Op): Cache
    requires Ready(src)
  {
    match op
    case Read(t) => c.(offered := c.offered + set s | s in Compute(src, t, Latest(c.rows, t)).1)
    case Store(snap) => if snap in c.offered then c.(rows := Insert(c.rows, snap)) else c
  }

  ghost function Play(src: Source, ops: seq<Op>): Cache
    requires Ready(src)
  {
    if ops == [] then EMPTY else Apply(src, Play(src, ops[..|ops| - 1]), ops[|ops| - 1])
  }

  /** What a read at `t` answers after a run of operations. */
  ghost function CachedRead(src: Source, ops: seq<Op>, t: Time): BalanceResult
    requires Ready(src)
  {
    Compute(src, t, Latest(Play(src, ops).rows, t)).0
  }

  ghost function Replay(src: Source, t: Time): BalanceResult
    requires Ready(src)
  {
    Compute(src, t, None).0
  }

  // ---- One read ----

  /** A seed from before the anchor is ignored. */
  lemma {:induction false} StaleSeedIgnored(src: Source, t: Time, snap: Snapshot)
    requires Ready(src) && src.anchor <= t && snap.asOf < src.anchor
    ensures Compute(src, t, Some(snap)) == Compute(src, t, None)
  {
    var ps := PeriodsAt(src.step, src.back, src.anchor, t);
    forall k | 0 <= k < |ps|
      ensures ps[k].from != snap.asOf
    {
      IterateIncreases(src.step, src.anchor, 0, k);
    }
    NoStart(ps, snap.asOf, 0);
  }

  /** Before the anchor, a read captures only boundaries before the anchor. */
  lemma {:induction false} EarlyReadsOfferEarly(src: Source, t: Time, seed: Option<Snapshot>, snap: Snapshot)
    requires Ready(src) && snap in Compute(src, t, seed).1
    ensures snap.asOf <= t
  {
    var ps := PeriodsAt(src.step, src.back, src.anchor, t);
    var j := OfferedAt(src.inp, ps, t, seed, snap);
    hide Contiguous, WellFormed, Beginning, PeriodsAt, Compute;
    PeriodsCoverInstant(src.step, src.back, src.anchor, t);
    assert ps[|ps| - 1].from <= t;
    StartsIncrease(ps, j - 1, |ps| - 1);
  }

  // ---- Coherence ----

  /** At no boundary of the reference run has an unexpired grant run dry. */
  ghost predicate NeverDrained(src: Source) {
    forall k: nat :: k > 0 ==> AllListed(src.inp.grants, RefSnap(src, k))
  }

  /** From the anchor on, a snapshot is the reference's own. */
  ghost predicate Genuine(src: Source, snap: Snapshot) {
    snap.asOf >= src.anchor ==> exists k: nat :: k > 0 && snap == RefSnap(src, k)
  }

  ghost predicate AllGenuine(src: Source, c: Cache) {
    && (forall s :: s in c.offered ==> Genuine(src, s))
    && (forall a :: a in c.rows ==> c.rows[a].asOf == a && Genuine(src, c.rows[a]))
  }

  /** A read seeded with a genuine snapshot answers like the replay and captures what it does. */
  lemma {:induction false} GenuineSeed(src: Source, t: Time, seed: Option<Snapshot>)
    requires Ready(src) && NeverDrained(src) && src.anchor <= t
    requires seed.Some? ==> Genuine(src, seed.value) && seed.value.asOf <= t
    ensures Compute(src, t, seed).0 == Compute(src, t, None).0
    ensures forall s :: s in Compute(src, t, seed).1 ==> s in Compute(src, t, None).1
  {
    if seed.Some? {
      if seed.value.asOf < src.anchor {
        StaleSeedIgnored(src, t, seed.value);
      } else {
        var k: nat :| k > 0 && seed.value == RefSnap(src, k);
        ReadReference(src, t, k);
        SeededAnswers(src.inp, PeriodsAt(src.step, src.back, src.anchor, t), k, t);
      }
    }
  }

  lemma {:induction false} ReplayOffersGenuine(src: Source, t: Time, snap: Snapshot)
    requires Ready(src) && src.anchor <= t && snap in Compute(src, t, None).1
    ensures Genuine(src, snap)
  {
    var ps := PeriodsAt(src.step, src.back, src.anchor, t);
    var j := OfferedAt(src.inp, ps, t, None, snap);
    BeginsFresh(src.inp.grants, ps);
    ReadBoundary(src, t, j);
    ReadReference(src, t, j);
    hide PeriodsAt, WellFormed;
    assert ps[j - 1].to == ps[j].from;
    assert snap == RefSnap(src, j);
  }

  lemma {:induction false} ReadKeepsGenuine(src: Source, c: Cache, t: Time)
    requires Ready(src) && NeverDrained(src) && AllGenuine(src, c)
    ensures AllGenuine(src, Apply(src, c, Read(t)))
  {
    var seed := Latest(c.rows, t);
    forall snap | snap in Compute(src, t, seed).1
      ensures Genuine(src, snap)
    {
      if t < src.anchor {
        EarlyReadsOfferEarly(src, t, seed, snap);
      } else {
        GenuineSeed(src, t, seed);
        ReplayOffersGenuine(src, t, snap);
      }
    }
  }

  lemma {:induction false} PlayKeepsGenuine(src: Source, ops: seq<Op>)
    requires Ready(src) && NeverDrained(src)
    ensures AllGenuine(src, Play(src, ops))
  {
    if ops != [] {
      var before, op := Play(src, ops[..|ops| - 1]), ops[|ops| - 1];
      PlayKeepsGenuine(src, ops[..|ops| - 1]);
      if op.Read? {
        ReadKeepsGenuine(src, before, op.t);
      }
    }
  }

  /** Cache coherence over whole runs: while no boundary drains an unexpired grant, any
      sequence of reads and stores leaves every row from the anchor on equal to the
      reference state, and every later read equal to the full replay. */
  lemma {:induction false} CacheIsCoherent(src: Source, ops: seq<Op>, t: Time)
    requires Ready(src) && NeverDrained(src) && src.anchor <= t
    ensures CachedRead(src, ops, t) == Replay(src, t)
    ensures forall a :: a in Play(src, ops).rows && a >= src.anchor ==>
              exists k: nat :: k > 0 && a == Boundary(src, k) && Play(src, ops).rows[a] == RefSnap(src, k)
  {
    hide Play, Compute, NeverDrained, RefState, Ready, Sum, StatesOf;
    var c := Play(src, ops);
    PlayKeepsGenuine(src, ops);
    var seed := Latest(c.rows, t);
    if seed.Some? {
      var k :| IsLatest(c.rows, t, k) && seed.value == c.rows[k];
    }
    GenuineSeed(src, t, seed);
    forall a | a in c.rows && a >= src.anchor
      ensures exists k: nat :: k > 0 && a == Boundary(src, k) && c.rows[a] == RefSnap(src, k)
    {
      var k: nat :| k > 0 && c.rows[a] == RefSnap(src, k);
      assert a == Boundary(src, k);
    }
  }

  // ---- And only then ----

  /** A drained boundary shows: read there, store what that read captured for it, read again. */
  function Exposing(src: Source, k: nat): seq<Op> {
    [Read(Boundary(src, k)), Store(RefSnap(src, k))]
  }

  lemma {:induction false} CaptureIn(inp: Inputs, ps: seq<Period>, t: Time, k: nat)
    requires 0 < k < |ps|
    ensures |Periodic(inp, ps, t, None).1| == |ps| - 1
    ensures Periodic(inp, ps, t, None).1[k - 1] == SnapshotOf(StateAt(inp, ps, 0, FRESH, k).active, ps[k - 1].to)
  {
    BeginsFresh(inp.grants, ps);
    hide SnapshotOf, Close, Answer, Beginning;
    CapturedAt(inp, ps, 0, FRESH, k, |ps| - 1);
  }

  /** The k-th snapshot of any replay from the anchor on is the reference's k-th. */
  lemma {:induction false} OffersBoundary(src: Source, t: Time, k: nat)
    requires Ready(src) && k > 0 && src.anchor <= t && Boundary(src, k) <= t
    ensures k <= |Compute(src, t, None).1| && Compute(src, t, None).1[k - 1] == RefSnap(src, k)
  {
    var ps := PeriodsAt(src.step, src.back, src.anchor, t);
    ReadReference(src, t, k);
    hide PeriodsAt, WellFormed, Periodic, SnapshotOf;
    CaptureIn(src.inp, ps, t, k);
    assert ps[k - 1].to == ps[k].from;
  }

  lemma {:induction false} ExposingRun(src: Source, k: nat)
    requires Ready(src) && k > 0
    ensures Play(src, Exposing(src, k)).rows == map[Boundary(src, k) := RefSnap(src, k)]
    ensures Latest(Play(src, Exposing(src, k)).rows, Boundary(src, k)) == Some(RefSnap(src, k))
  {
    var t, ops := Boundary(src, k), Exposing(src, k);
    assert ops[..1] == [Read(t)] && [Read(t)][..0] == [];
    assert Play(src, []) == EMPTY;
    assert Play(src, ops[..1]) == Apply(src, EMPTY, Read(t));
    assert Latest(map[], t) == None;
    IterateIncreases(src.step, src.anchor, 0, k);
    OffersBoundary(src, t, k);
    assert Play(src, ops) == Apply(src, Play(src, ops[..1]), Store(RefSnap(src, k)));
  }

  /** What a read at boundary `k`, seeded with that boundary's own snapshot, overstates. */
  ghost function Overstated(src: Source, k: nat): int
    requires Ready(src) && k > 0
  {
    Compute(src, Boundary(src, k), Some(RefSnap(src, k))).0.balance - Replay(src, Boundary(src, k)).balance
  }

  /** Exactly the full amounts of the live grants that the snapshot leaves out. */
  lemma {:induction false} DrainShows(src: Source, k: nat)
    requires Ready(src) && k > 0 && src.inp.usage(Boundary(src, k), Boundary(src, k)) == 0
    ensures Overstated(src, k) == UnlistedTotal(src.inp.grants, ListedIds(RefSnap(src, k)), Boundary(src, k))
    ensures Overstated(src, k) >= 0
    ensures Overstated(src, k) > 0 <==> !AllListed(src.inp.grants, RefSnap(src, k))
  {
    var t := Boundary(src, k);
    var ps := PeriodsAt(src.step, src.back, src.anchor, t);
    IterateIncreases(src.step, src.anchor, 0, k);
    ReadReference(src, t, k);
    PeriodsCoverInstant(src.step, src.back, src.anchor, t);
    var st := StateAt(src.inp, ps, 0, FRESH, k);
    SeededState(src.inp, ps, k);
    SeededBegins(src.inp, ps, k);
    SeededOpensRicher(src.inp, st, ps[k]);
    RicherIffUnlisted(src.inp.grants, st.active, t);
    ListedIdsAre(st.active, t);
    BeginsFresh(src.inp.grants, ps);
    hide AllListed, Open, AnswerIn, Contiguous, Sound, Beginning, UnlistedTotal, IdsOf, ListedIds;
    AnswerAtStart(src.inp, st, ps[k], false);
    AnswerAtStart(src.inp, State(st.active, IdsOf(st.active)), ps[k], true);
  }

  ghost function OverstatedBy(src: Source, m: nat): int
    requires Ready(src)
  {
    if m == 0 then 0 else OverstatedBy(src, m - 1) + Overstated(src, m)
  }

  /** The grant is live at boundary `k` and left out of its snapshot. */
  predicate DrainedAt(src: Source, k: nat, g: Grant)
    requires Ready(src) && k > 0
  {
    && g in src.inp.grants && g.effectiveAt < Boundary(src, k) && !Expired(g, Boundary(src, k))
    && g.id !in ListedIds(RefSnap(src, k))
  }

  lemma {:induction false} DrainedOnce(src: Source, k: nat, g: Grant)
    requires Ready(src) && k > 0 && src.inp.usage(Boundary(src, k), Boundary(src, k)) == 0 && DrainedAt(src, k, g)
    ensures Overstated(src, k) >= g.amount
  {
    DrainShows(src, k);
    assert forall h :: h in src.inp.grants ==> h.amount > 0;
    hide Overstated, Boundary, RefSnap, ListedIds, UnlistedTotal;
    UnlistedTotalIs(src.inp.grants, ListedIds(RefSnap(src, k)), Boundary(src, k));
  }

  lemma {:induction false} OverstatedNext(src: Source, m: nat)
    requires Ready(src)
    ensures OverstatedBy(src, m) == if m == 0 then 0 else OverstatedBy(src, m - 1) + Overstated(src, m)
  {
  }

  lemma {:induction false} DrainedSoFar(src: Source, m: nat, g: Grant)
    requires Ready(src) && forall a: Time :: src.inp.usage(a, a) == 0
    requires forall k: nat :: 0 < k <= m ==> DrainedAt(src, k, g)
    ensures OverstatedBy(src, m) >= Added(g.amount, m)
  {
    hide *;
    OverstatedNext(src, m);
    AddedNext(g.amount, m);
    if m > 0 {
      DrainedSoFar(src, m - 1, g);
      DrainedOnce(src, m, g);
    }
  }

  /** A grant drained at each of `m` boundaries is counted whole again at each: reads there
      overstate by at least `m` times its amount between them. */
  lemma {:induction false} DrainedEachTime(src: Source, m: nat, g: Grant)
    requires Ready(src) && forall a: Time :: src.inp.usage(a, a) == 0
    requires forall k: nat :: 0 < k <= m ==> DrainedAt(src, k, g)
    ensures OverstatedBy(src, m) >= m * g.amount
  {
    hide *;
    DrainedSoFar(src, m, g);
    AddedIs(g.amount, m);
  }

  /** Coherence exactly: every read of every run equals the replay if and only if no
      boundary of the reference run drains an unexpired grant. */
  lemma {:induction false} CoherentIffNeverDrained(src: Source)
    requires Ready(src) && forall a: Time :: src.inp.usage(a, a) == 0
    ensures (forall ops: seq<Op>, t: Time :: src.anchor <= t ==> CachedRead(src, ops, t) == Replay(src, t))
            <==> NeverDrained(src)
  {
    if NeverDrained(src) {
      forall ops: seq<Op>, t: Time | src.anchor <= t
        ensures CachedRead(src, ops, t) == Replay(src, t)
      {
        CacheIsCoherent(src, ops, t);
      }
    } else {
      var k: nat :| k > 0 && !AllListed(src.inp.grants, RefSnap(src, k));
      ExposingRun(src, k);
      DrainShows(src, k);
      IterateIncreases(src.step, src.anchor, 0, k);
      assert CachedRead(src, Exposing(src, k), Boundary(src, k)) != Replay(src, Boundary(src, k));
    }
  }

  // ---- In any case: never understated ----

  ghost predicate GenerousAt(src: Source, snap: Snapshot, k: nat, st: State) {
    && k > 0 && snap == SnapshotOf(st.active, Boundary(src, k))
    && Sound(src.inp.grants, st) && st.seen <= IdsBefore(src.inp.grants, Boundary(src, k))
    && Covers(st.active, RefState(src, k).active)
  }

  /** A snapshot that holds at least what the reference holds at the same boundary. */
  ghost predicate Generous(src: Source, snap: Snapshot) {
    snap.asOf >= src.anchor ==> exists k: nat, st: State :: GenerousAt(src, snap, k, st)
  }

  ghost predicate AllGenerous(src: Source, c: Cache) {
    && (forall s :: s in c.offered ==> Generous(src, s))
    && (forall a :: a in c.rows ==> c.rows[a].asOf == a && Generous(src, c.rows[a]))
  }

  /** Burn order determined by the grants, and usage never negative. */
  ghost predicate Monotone(src: Source) {
    Ready(src) && KeysApart(src.inp.grants) && forall from, to :: src.inp.usage(from, to) >= 0
  }

  lemma {:induction false} GenerousBegins(src: Source, t: Time, snap: Snapshot, k: nat, st: State)
    requires Ready(src) && src.anchor <= t && snap.asOf <= t && GenerousAt(src, snap, k, st)
    ensures var ps := PeriodsAt(src.step, src.back, src.anchor, t);
            && k < |ps| && Contiguous(ps) && ps[k].from == Boundary(src, k)
            && Beginning(src.inp.grants, ps, Some(snap)) == (k, State(st.active, IdsOf(st.active)))
  {
    ReadReference(src, t, k);
    var ps := PeriodsAt(src.step, src.back, src.anchor, t);
    SeedRestores(src.inp.grants, st.active);
    FindsStart(ps, k, 0);
  }

  /** A read seeded with a generous snapshot answers with at least as much as the replay. */
  lemma {:induction false} GenerousSeed(src: Source, t: Time, snap: Snapshot, k: nat, st: State)
    requires Monotone(src) && src.anchor <= t && snap.asOf <= t && GenerousAt(src, snap, k, st)
    ensures AtLeast(Compute(src, t, Some(snap)).0, Replay(src, t))
  {
    var ps := PeriodsAt(src.step, src.back, src.anchor, t);
    GenerousBegins(src, t, snap, k, st);
    ReadReference(src, t, k);
    SeedIsSound(src.inp, st, Boundary(src, k));
    hide Answer, Covers, Contiguous;
    SeededAtLeast(src.inp, ps, k, State(st.active, IdsOf(st.active)), k, t);
  }

  lemma {:induction false} SeededStateGenerous(src: Source, ps: seq<Period>, k: nat, seeded: State, j: nat)
    requires Monotone(src) && Contiguous(ps) && 0 < k < j < |ps|
    requires ps[k].from == Boundary(src, k) && ps[j].from == Boundary(src, j)
    requires StateAt(src.inp, ps, 0, FRESH, k) == RefState(src, k)
            && StateAt(src.inp, ps, 0, FRESH, j) == RefState(src, j)
    requires Sound(src.inp.grants, seeded) && seeded.seen <= IdsBefore(src.inp.grants, Boundary(src, k))
    requires Covers(seeded.active, RefState(src, k).active)
    ensures var st := StateAt(src.inp, ps, k, seeded, j);
            GenerousAt(src, SnapshotOf(st.active, ps[j - 1].to), j, st)
  {
    assert ps[j - 1].to == ps[j].from;
    StateAtSound(src.inp, ps, k, seeded, j);
    SeenIsBefore(src.inp, ps, k, seeded, j);
    SeededAtLeast(src.inp, ps, k, seeded, j, 0);
  }

  lemma {:induction false} GenerousSeedOffers(src: Source, t: Time, snap: Snapshot, k: nat, st: State, out: Snapshot)
    requires Monotone(src) && src.anchor <= t && snap.asOf <= t && GenerousAt(src, snap, k, st)
    requires out in Compute(src, t, Some(snap)).1
    ensures Generous(src, out)
  {
    var ps := PeriodsAt(src.step, src.back, src.anchor, t);
    var seeded := State(st.active, IdsOf(st.active));
    GenerousBegins(src, t, snap, k, st);
    ReadReference(src, t, k);
    SeedIsSound(src.inp, st, Boundary(src, k));
    var j := OfferedAt(src.inp, ps, t, Some(snap), out);
    ReadBoundary(src, t, j);
    ReadReference(src, t, j);
    hide PeriodsAt, WellFormed, Covers, Sound, SnapshotOf, IdsBefore, GenerousAt, Beginning;
    SeededStateGenerous(src, ps, k, seeded, j);
    assert ps[j - 1].to == ps[j].from;
    assert GenerousAt(src, out, j, StateAt(src.inp, ps, k, seeded, j));
  }

  lemma {:induction false} RefIsGenerous(src: Source, k: nat)
    requires Ready(src) && k > 0
    ensures GenerousAt(src, RefSnap(src, k), k, RefState(src, k))
  {
    var chain := Chain(src.step, src.anchor, k);
    ChainContiguous(src.step, src.anchor, k);
    StateAtSound(src.inp, chain, 0, FRESH, k);
    SeenIsBefore(src.inp, chain, 0, FRESH, k);
    CoversItself(RefState(src, k).active);
  }

  lemma {:induction false} ReplayOffersGenerous(src: Source, t: Time, snap: Snapshot)
    requires Ready(src) && src.anchor <= t && snap in Compute(src, t, None).1
    ensures Generous(src, snap)
  {
    ReplayOffersGenuine(src, t, snap);
    if snap.asOf >= src.anchor {
      var k: nat :| k > 0 && snap == RefSnap(src, k);
      RefIsGenerous(src, k);
    }
  }

  lemma {:induction false} AnyReadOffersGenerous(src: Source, t: Time, seed: Option<Snapshot>, out: Snapshot)
    requires Monotone(src) && out in Compute(src, t, seed).1
    requires seed.Some? ==> Generous(src, seed.value) && seed.value.asOf <= t
    ensures Generous(src, out)
  {
    if t < src.anchor {
      EarlyReadsOfferEarly(src, t, seed, out);
    } else if seed.None? {
      ReplayOffersGenerous(src, t, out);
    } else if seed.value.asOf < src.anchor {
      StaleSeedIgnored(src, t, seed.value);
      ReplayOffersGenerous(src, t, out);
    } else {
      var k: nat, st: State :| GenerousAt(src, seed.value, k, st);
      GenerousSeedOffers(src, t, seed.value, k, st, out);
    }
  }

  lemma {:induction false} PlayKeepsGenerous(src: Source, ops: seq<Op>)
    requires Monotone(src)
    ensures AllGenerous(src, Play(src, ops))
  {
    if ops != [] {
      var before, op := Play(src, ops[..|ops| - 1]), ops[|ops| - 1];
      PlayKeepsGenerous(src, ops[..|ops| - 1]);
      if op.Read? {
        var seed := Latest(before.rows, op.t);
        forall out | out in Compute(src, op.t, seed).1
          ensures Generous(src, out)
        {
          AnyReadOffersGenerous(src, op.t, seed, out);
        }
      }
    }
  }

  /** No run of reads and stores, whatever boundaries drain, makes a later read understate
      the balance, overstate the overage or deny access the replay would give. */
  lemma {:induction false} CacheNeverUnderstates(src: Source, ops: seq<Op>, t: Time)
    requires Monotone(src) && src.anchor <= t
    ensures AtLeast(CachedRead(src, ops, t), Replay(src, t))
  {
    PlayKeepsGenerous(src, ops);
    var rows := Play(src, ops).rows;
    var seed := Latest(rows, t);
    if seed.Some? {
      var a :| IsLatest(rows, t, a) && seed.value == rows[a];
      if a < src.anchor {
        StaleSeedIgnored(src, t, seed.value);
      } else {
        var k: nat, st: State :| GenerousAt(src, seed.value, k, st);
        GenerousSeed(src, t, seed.value, k, st);
      }
    }
  }
}
