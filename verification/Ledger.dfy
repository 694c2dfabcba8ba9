/** The balance fold of internal/ledger/ledger.go, as functions on values. */
module Ledger {
  import opened Options
  import opened Calendar
  import opened Periods

  /** Identifiers are opaque keys, only ever compared for equality. */
  type Id = nat

  datatype Grant = Grant(
    id: Id, amount: int, priority: int,
    effectiveAt: Time, expiresAt: Option<Time>, rolloverMax: Option<int>)

  /** A grant in play together with what is left of it. */
  datatype Active = Active(grant: Grant, remaining: int)

  datatype GrantState = GrantState(grantId: Id, remaining: int)

  datatype Snapshot = Snapshot(asOf: Time, balance: int, perGrant: seq<GrantState>)

  /** An absent, unparsable or parsed usage period. */
  datatype UsagePeriod = NoPeriod | Malformed | Every(duration: Duration)

  datatype Entitlement = Entitlement(id: Id, usagePeriod: UsagePeriod, anchor: Option<Time>, createdAt: Time)
  {
    function Anchor(): Time { anchor.GetOr(createdAt) }
  }

  datatype BalanceResult = BalanceResult(
    hasAccess: bool, balance: int, usage: int, overage: int,
    period: Option<Period>, lastReset: Option<Time>)

  /** Usage recorded in the half-open window between two instants. */
  type Meter = (Time, Time) -> int

  /** What `sort.Slice` does to the active grants; see `Sorts`. */
  type Sorter = seq<Active> -> seq<Active>

  /** Everything a computation reads besides the instant and the seed. */
  datatype Inputs = Inputs(grants: seq<Grant>, usage: Meter, sort: Sorter)

  /** The grants in play and the ids that will not be admitted again. */
  datatype State = State(active: seq<Active>, seen: set<Id>)

  // ---- Burn order ----

  /** The comparison handed to `sort.Slice`. */
  predicate Less(x: Grant, y: Grant) {
    if x.priority != y.priority then x.priority < y.priority else x.effectiveAt < y.effectiveAt
  }

  predicate Ordered(s: seq<Active>) {
    forall i, j :: 0 <= i < j < |s| ==> !Less(s[j].grant, s[i].grant)
  }

  /** All that `sort.Slice` promises: the same grants, in order; ties fall anyhow. */
  ghost predicate Sorts(sort: Sorter) {
    forall s: seq<Active> :: Ordered(sort(s)) && multiset(sort(s)) == multiset(s)
  }

  // ---- Admission and expiry ----

  predicate Expired(g: Grant, at: Time) {
    g.expiresAt.Some? && g.expiresAt.value <= at
  }

  predicate Due(g: Grant, p: Period, first: bool) {
    (p.from <= g.effectiveAt < p.to) || (first && g.effectiveAt < p.from)
  }

  /** Grants entering play in a period, and the ids marked by then. */
  function Admit(grants: seq<Grant>, seen: set<Id>, p: Period, first: bool): (seq<Active>, set<Id>) {
    if grants == [] then ([], seen)
    else
      var g := grants[|grants| - 1];
      var (admitted, marked) := Admit(grants[..|grants| - 1], seen, p, first);
      if g.id !in marked && Due(g, p, first) then (admitted + [Active(g, g.amount)], marked + {g.id})
      else (admitted, marked)
  }

  function Prune(s: seq<Active>, at: Time): seq<Active> {
    if s == [] then []
    else
      var rest := Prune(s[..|s| - 1], at);
      if Expired(s[|s| - 1].grant, at) then rest else rest + [s[|s| - 1]]
  }

  // ---- Burning usage ----

  /** Take usage from the grants in order; also what no grant could cover. */
  function Burn(s: seq<Active>, usage: int): (seq<Active>, int)
  {
    if s == [] || usage <= 0 then (s, usage)
    else if s[0].remaining >= usage then ([s[0].(remaining := s[0].remaining - usage)] + s[1..], 0)
    else
      var (rest, uncovered) := Burn(s[1..], usage - s[0].remaining);
      ([s[0].(remaining := 0)] + rest, uncovered)
  }

  // ---- Period boundaries ----

  /** What one grant carries over a boundary. */
  function Carry(a: Active, to: Time): Option<Active> {
    if a.remaining == 0 || Expired(a.grant, to) then None
    else
      var capped := if a.grant.rolloverMax.Some? && a.remaining > a.grant.rolloverMax.value
                    then a.grant.rolloverMax.value else a.remaining;
      if capped > 0 then Some(a.(remaining := capped)) else None
  }

  function Roll(s: seq<Active>, to: Time): seq<Active> {
    if s == [] then []
    else
      var rest := Roll(s[..|s| - 1], to);
      var carried := Carry(s[|s| - 1], to);
      if carried.Some? then rest + [carried.value] else rest
  }

  function Sum(s: seq<Active>): int {
    if s == [] then 0 else Sum(s[..|s| - 1]) + s[|s| - 1].remaining
  }

  function StatesOf(s: seq<Active>): (states: seq<GrantState>)
    ensures |states| == |s|
    ensures forall i :: 0 <= i < |s| ==> states[i] == GrantState(s[i].grant.id, s[i].remaining)
  {
    seq(|s|, i requires 0 <= i < |s| => GrantState(s[i].grant.id, s[i].remaining))
  }

  function SnapshotOf(s: seq<Active>, asOf: Time): Snapshot {
    Snapshot(asOf, Sum(s), StatesOf(s))
  }

  // ---- One period ----

  /** The grants in play once the period has admitted and pruned. */
  function Open(inp: Inputs, st: State, p: Period, first: bool): State {
    var (admitted, marked) := Admit(inp.grants, st.seen, p, first);
    State(Prune(st.active + admitted, p.from), marked)
  }

  /** The grants and the overage after burning the usage up to `upTo`. */
  function Spend(inp: Inputs, st: State, p: Period, first: bool, upTo: Time): (seq<Active>, int) {
    Burn(inp.sort(Open(inp, st, p, first).active), inp.usage(p.from, upTo))
  }

  /** A whole period, up to and over its closing boundary. */
  function Close(inp: Inputs, st: State, p: Period, first: bool): State {
    State(Roll(Spend(inp, st, p, first, p.to).0, p.to), Open(inp, st, p, first).seen)
  }

  // ---- The fold over periods ----

  /** The state entering period `j` of a computation that started at period `start`. */
  function StateAt(inp: Inputs, periods: seq<Period>, start: nat, st0: State, j: nat): State
    requires start <= j <= |periods|
    decreases j
  {
    if j == start then st0
    else Close(inp, StateAt(inp, periods, start, st0, j - 1), periods[j - 1], j - 1 == start)
  }

  /** The snapshots captured by closing periods `start .. j`. */
  function Captured(inp: Inputs, periods: seq<Period>, start: nat, st0: State, j: nat): (snaps: seq<Snapshot>)
    requires start <= j <= |periods|
    ensures |snaps| == j - start
    decreases j
  {
    if j == start then []
    else Captured(inp, periods, start, st0, j - 1)
         + [SnapshotOf(StateAt(inp, periods, start, st0, j).active, periods[j - 1].to)]
  }

  /** Unexpired credit at `t`. */
  function LiveSum(s: seq<Active>, t: Time): int {
    if s == [] then 0
    else LiveSum(s[..|s| - 1], t) + (if Expired(s[|s| - 1].grant, t) then 0 else s[|s| - 1].remaining)
  }

  /** The state in the current (last) period at `t`, with the overage. */
  function Current(inp: Inputs, periods: seq<Period>, start: nat, st0: State, t: Time): (seq<Active>, int)
    requires start < |periods|
  {
    var last := |periods| - 1;
    Spend(inp, StateAt(inp, periods, start, st0, last), periods[last], last == start, t)
  }

  /** The answer at `t` inside period `p`, entered with state `st`. */
  function AnswerIn(inp: Inputs, st: State, p: Period, first: bool, t: Time): BalanceResult {
    var (active, overage) := Spend(inp, st, p, first, t);
    var balance := LiveSum(active, t);
    BalanceResult(balance > 0, balance, inp.usage(p.from, t), overage, Some(p), Some(p.from))
  }

  function Answer(inp: Inputs, periods: seq<Period>, start: nat, st0: State, t: Time): BalanceResult
    requires start < |periods|
  {
    var last := |periods| - 1;
    AnswerIn(inp, StateAt(inp, periods, start, st0, last), periods[last], last == start, t)
  }

  // ---- Seeding ----

  const FRESH := State([], {})

  /** The last grant with that id, as a map filled in list order keeps it. */
  function Lookup(grants: seq<Grant>, id: Id): Option<Grant> {
    if grants == [] then None
    else if grants[|grants| - 1].id == id then Some(grants[|grants| - 1])
    else Lookup(grants[..|grants| - 1], id)
  }

  function Seed(grants: seq<Grant>, states: seq<GrantState>): State {
    if states == [] then FRESH
    else
      var st := Seed(grants, states[..|states| - 1]);
      var gs := states[|states| - 1];
      match Lookup(grants, gs.grantId)
      case None => st
      case Some(g) => State(st.active + [Active(g, gs.remaining)], st.seen + {gs.grantId})
  }

  /** The first period from `i` on that starts at `asOf`. */
  function FindStart(periods: seq<Period>, asOf: Time, i: nat): (found: Option<nat>)
    requires i <= |periods|
    ensures found.Some? ==> found.value < |periods| && periods[found.value].from == asOf
    decreases |periods| - i
  {
    if i == |periods| then None
    else if periods[i].from == asOf then Some(i)
    else FindStart(periods, asOf, i + 1)
  }

  /** Where a computation starts, and from what state. */
  function Beginning(grants: seq<Grant>, periods: seq<Period>, seed: Option<Snapshot>): (begin: (nat, State))
    ensures |periods| > 0 ==> begin.0 < |periods|
  {
    if seed.None? then (0, FRESH)
    else
      var found := FindStart(periods, seed.value.asOf, 0);
      if found.None? then (0, FRESH)
      else (found.value, Seed(grants, seed.value.perGrant))
  }

  // ---- The two computations ----

  predicate LiveAt(g: Grant, t: Time) { g.effectiveAt <= t && !Expired(g, t) }

  function LiveGrants(grants: seq<Grant>, t: Time): seq<Active> {
    if grants == [] then []
    else
      var g := grants[|grants| - 1];
      var rest := LiveGrants(grants[..|grants| - 1], t);
      if LiveAt(g, t) then rest + [Active(g, g.amount)] else rest
  }

  /** `calculateStatelessBalance`. */
  function Stateless(inp: Inputs, t: Time, usage: int): BalanceResult {
    var (active, overage) := Burn(inp.sort(LiveGrants(inp.grants, t)), usage);
    BalanceResult(Sum(active) > 0, Sum(active), usage, overage, None, None)
  }

  /** The periodic computation over given periods. */
  function Periodic(inp: Inputs, periods: seq<Period>, t: Time, seed: Option<Snapshot>): (BalanceResult, seq<Snapshot>)
    requires |periods| > 0
  {
    var (start, st0) := Beginning(inp.grants, periods, seed);
    (Answer(inp, periods, start, st0, t), Captured(inp, periods, start, st0, |periods| - 1))
  }

  /** What `CalculateBalance` demands of the parsed duration: to move forward. */
  predicate WellTimed(ent: Entitlement) {
    ent.usagePeriod.Every? ==> ent.usagePeriod.duration.Positive()
  }

  /** `CalculateBalance`. */
  function Calculate(inp: Inputs, ent: Entitlement, t: Time, seed: Option<Snapshot>): (BalanceResult, seq<Snapshot>)
    requires WellTimed(ent)
  {
    match ent.usagePeriod
    case Every(d) =>
      PositiveSteps(d);
      PositiveStepsBack(d);
      Periodic(inp, PeriodsAt(Shifter(d, 1), Shifter(d, -1), ent.Anchor(), t), t, seed)
    case _ =>
      (Stateless(inp, t, inp.usage(ent.createdAt, t)), [])
  }
}
