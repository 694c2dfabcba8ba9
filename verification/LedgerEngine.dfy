/** `CalculateBalance` as it runs: active grants as objects whose remaining amounts the
    loops update through references, proved against the fold in module Ledger. */
module LedgerEngine {
  import opened Options
  import opened Calendar
  import opened Periods
  import opened Ledger
  import opened Sorting
  import opened Sequences
  import opened Burning

  class ActiveGrant {
    const grant: Grant
    var remaining: int

    constructor (grant: Grant, remaining: int)
      ensures this.grant == grant && this.remaining == remaining
    {
      this.grant := grant;
      this.remaining := remaining;
    }

    function Value(): Active
      reads this
    {
      Active(grant, remaining)
    }
  }

  /** The values the referenced grants hold now. */
  ghost function Values(active: seq<ActiveGrant>): (s: seq<Active>)
    reads active
    ensures |s| == |active|
    ensures forall i :: 0 <= i < |s| ==> s[i] == active[i].Value()
  {
    seq(|active|, i requires 0 <= i < |active| reads active => active[i].Value())
  }

  ghost function Refs(active: seq<ActiveGrant>): set<ActiveGrant> {
    set a | a in active
  }

  lemma {:induction false} RefsAppend(active: seq<ActiveGrant>, ag: ActiveGrant)
    ensures Refs(active + [ag]) == Refs(active) + {ag}
  {
  }

  lemma {:induction false} RefsTake(active: seq<ActiveGrant>, k: nat)
    requires k < |active|
    ensures Refs(active[..k + 1]) == Refs(active[..k]) + {active[k]}
    ensures active[k] in Refs(active)
  {
  }

  // ---- Sorting the references ----

  lemma {:induction false} InsertSlides(base: seq<Active>, i: nat, j: nat, x: Active)
    requires 0 < j <= i <= |base| && Less(x.grant, base[j - 1].grant)
    ensures Insert(base[..j], x) + base[j..i] == Insert(base[..j - 1], x) + base[j - 1..i]
  {
    assert base[..j][..j - 1] == base[..j - 1] && base[..j][j - 1] == base[j - 1];
    assert base[j - 1..i] == [base[j - 1]] + base[j..i];
  }

  lemma {:induction false} SwapSlides(v: seq<Active>, base: seq<Active>, x: Active, i: nat, j: nat)
    requires 0 < j <= i <= |base| && v == base[..j] + [x] + base[j..i]
    ensures v[j] == x && v[j - 1] == base[j - 1]
    ensures v[j := v[j - 1]][j - 1 := x] == base[..j - 1] + [x] + base[j - 1..i]
  {
  }

  lemma {:induction false} InsertStops(slid: seq<ActiveGrant>, base: seq<Active>, x: Active, i: nat, j: nat)
    requires j <= i < |slid| && i <= |base| && Values(slid[..i + 1]) == base[..j] + [x] + base[j..i]
    requires j > 0 ==> !Less(slid[j].grant, slid[j - 1].grant)
    ensures Insert(base[..j], x) + base[j..i] == Values(slid[..i + 1])
  {
  }

  /** Swap the grant at `i` left until the one before it burns no later. */
  method Slide(active: seq<ActiveGrant>, i: nat) returns (slid: seq<ActiveGrant>)
    requires i < |active|
    ensures |slid| == |active| && slid[i + 1..] == active[i + 1..]
    ensures multiset(slid) == multiset(active)
    ensures Values(slid[..i + 1]) == Insert(Values(active)[..i], active[i].Value())
  {
    hide Insert, Less;
    slid := active;
    ghost var base, x := Values(active), active[i].Value();
    var j := i;
    assert base[i..i] == [];
    while j > 0 && Less(slid[j].grant, slid[j - 1].grant)
      invariant 0 <= j <= i < |slid| == |active|
      invariant multiset(slid) == multiset(active)
      invariant slid[i + 1..] == active[i + 1..]
      invariant Values(slid[..i + 1]) == base[..j] + [x] + base[j..i]
      invariant Insert(base[..i], x) == Insert(base[..j], x) + base[j..i]
    {
      ghost var v := Values(slid[..i + 1]);
      SwapSlides(v, base, x, i, j);
      InsertSlides(base, i, j, x);
      slid := slid[j := slid[j - 1]][j - 1 := slid[j]];
      assert Values(slid[..i + 1]) == v[j := v[j - 1]][j - 1 := x];
      j := j - 1;
    }
    InsertStops(slid, base, x, i, j);
  }

  lemma {:induction false} SortExtends(s: seq<Active>, i: nat)
    requires i < |s|
    ensures StableSort(s[..i + 1]) == Insert(StableSort(s[..i]), s[i])
  {
    assert s[..i + 1][..i] == s[..i] && s[..i + 1][i] == s[i];
  }

  lemma {:induction false} TailsAgree(a: seq<ActiveGrant>, b: seq<ActiveGrant>, i: nat)
    requires i < |a| == |b| && a[i..] == b[i..]
    ensures a[i] == b[i] && a[i + 1..] == b[i + 1..]
  {
    assert a[i] == a[i..][0] && b[i] == b[i..][0];
    assert a[i + 1..] == a[i..][1..] && b[i + 1..] == b[i..][1..];
  }

  /** `sort.Slice` on the active grants, by insertion. */
  method SortActive(active: seq<ActiveGrant>) returns (sorted: seq<ActiveGrant>)
    ensures Values(sorted) == StableSort(Values(active))
    ensures multiset(sorted) == multiset(active)
  {
    sorted := active;
    ghost var all := Values(active);
    assert StableSort(all[..0]) == [];
    hide StableSort, Insert, Less;
    for i := 0 to |active|
      invariant |sorted| == |active| && multiset(sorted) == multiset(active)
      invariant Values(sorted[..i]) == StableSort(all[..i])
      invariant sorted[i..] == active[i..]
    {
      SortExtends(all, i);
      TailsAgree(sorted, active, i);
      assert Values(sorted)[..i] == Values(sorted[..i]);
      sorted := Slide(sorted, i);
    }
    assert all[..|all|] == all && sorted[..|sorted|] == sorted;
  }

  // ---- Burning through the references ----

  /** What is left of the first grant, and the usage handed on to the next. */
  function Taken(a: Active, usage: int): (Active, int) {
    if a.remaining >= usage then (a.(remaining := a.remaining - usage), 0)
    else (a.(remaining := 0), usage - a.remaining)
  }

  lemma {:induction false} BurnAdvances(s: seq<Active>, i: nat, usage: int, target: seq<Active>, overage: int)
    requires i < |s| == |target| && usage > 0 && Burn(s[i..], usage) == (target[i..], overage)
    ensures target[i] == Taken(s[i], usage).0
    ensures Burn(s[i + 1..], Taken(s[i], usage).1) == (target[i + 1..], overage)
  {
    assert s[i..][1..] == s[i + 1..] && target[i..][1..] == target[i + 1..];
    assert target[i..][0] == target[i];
  }

  lemma {:induction false} BurnDone(s: seq<Active>, i: nat, usage: int, target: seq<Active>, overage: int)
    requires i <= |s| == |target| && (i == |s| || usage <= 0) && Burn(s[i..], usage) == (target[i..], overage)
    ensures overage == usage
    ensures forall k :: i <= k < |s| ==> target[k] == s[k]
  {
  }

  /** Take usage from the grants in order, stopping once it is covered. */
  method BurnUsage(active: seq<ActiveGrant>, usage: int) returns (remainingUsage: int)
    requires NoRepeats(active)
    modifies Refs(active)
    ensures Values(active) == Burn(old(Values(active)), usage).0
    ensures remainingUsage == Burn(old(Values(active)), usage).1
  {
    remainingUsage := usage;
    ghost var s := Values(active);
    ghost var target, overage := Burn(s, usage).0, Burn(s, usage).1;
    BurnKeepsGrants(s, usage);
    hide Burn, Values;
    var i := 0;
    assert s[0..] == s && target[0..] == target;
    assert forall k :: 0 <= k < |active| ==> active[k] in Refs(active);
    while i < |active| && remainingUsage > 0
      invariant 0 <= i <= |active| == |s| == |target|
      invariant forall k :: 0 <= k < i ==> active[k].Value() == target[k]
      invariant forall k :: i <= k < |active| ==> active[k].Value() == s[k]
      invariant Burn(s[i..], remainingUsage) == (target[i..], overage)
    {
      var ag := active[i];
      BurnAdvances(s, i, remainingUsage, target, overage);
      if ag.remaining >= remainingUsage {
        ag.remaining := ag.remaining - remainingUsage;
        remainingUsage := 0;
      } else {
        remainingUsage := remainingUsage - ag.remaining;
        ag.remaining := 0;
      }
      i := i + 1;
    }
    BurnDone(s, i, remainingUsage, target, overage);
  }

  // ---- Seeding, admission, pruning ----

  /** The seed's grants that still exist, as a map filled in list order finds them. */
  method SeedActive(grants: seq<Grant>, states: seq<GrantState>) returns (active: seq<ActiveGrant>, seen: set<Id>)
    ensures NoRepeats(active) && fresh(Refs(active))
    ensures State(Values(active), seen) == Seed(grants, states)
  {
    var grantMap: map<Id, Grant> := map[];
    for i := 0 to |grants|
      invariant forall id :: id in grantMap <==> Lookup(grants[..i], id).Some?
      invariant forall id :: id in grantMap ==> Lookup(grants[..i], id) == Some(grantMap[id])
    {
      assert grants[..i + 1][..i] == grants[..i];
      grantMap := grantMap[grants[i].id := grants[i]];
    }
    assert grants[..|grants|] == grants;
    active, seen := [], {};
    for i := 0 to |states|
      invariant NoRepeats(active) && fresh(Refs(active))
      invariant State(Values(active), seen) == Seed(grants, states[..i])
    {
      assert states[..i + 1][..i] == states[..i];
      var gs := states[i];
      if gs.grantId in grantMap {
        var ag := new ActiveGrant(grantMap[gs.grantId], gs.remaining);
        RefsAppend(active, ag);
        active := active + [ag];
        seen := seen + {gs.grantId};
      }
    }
    assert states[..|states|] == states;
  }

  /** Add the grants effective in this period, or before the first evaluated one. */
  method AdmitGrants(active: seq<ActiveGrant>, seen: set<Id>, grants: seq<Grant>, p: Period, first: bool)
    returns (grown: seq<ActiveGrant>, marked: set<Id>)
    requires NoRepeats(active)
    ensures NoRepeats(grown) && fresh(Refs(grown) - Refs(active))
    ensures Values(grown) == Values(active) + Admit(grants, seen, p, first).0
    ensures marked == Admit(grants, seen, p, first).1
  {
    grown, marked := active, seen;
    for k := 0 to |grants|
      invariant NoRepeats(grown) && fresh(Refs(grown) - Refs(active))
      invariant Values(grown) == Values(active) + Admit(grants[..k], seen, p, first).0
      invariant marked == Admit(grants[..k], seen, p, first).1
    {
      assert grants[..k + 1][..k] == grants[..k];
      var g := grants[k];
      var inPeriod := p.from <= g.effectiveAt < p.to;
      var preFirst := first && g.effectiveAt < p.from;
      if g.id !in marked && (inPeriod || preFirst) {
        var ag := new ActiveGrant(g, g.amount);
        grown := grown + [ag];
        marked := marked + {g.id};
      }
    }
    assert grants[..|grants|] == grants;
  }

  method PruneExpired(active: seq<ActiveGrant>, at: Time) returns (filtered: seq<ActiveGrant>)
    requires NoRepeats(active)
    ensures NoRepeats(filtered) && Refs(filtered) <= Refs(active)
    ensures Values(filtered) == Prune(Values(active), at)
  {
    filtered := [];
    for k := 0 to |active|
      invariant NoRepeats(filtered) && Refs(filtered) <= Refs(active[..k])
      invariant Values(filtered) == Prune(Values(active)[..k], at)
    {
      assert Values(active)[..k + 1][..k] == Values(active)[..k];
      assert active[k] !in Refs(active[..k]);
      RefsTake(active, k);
      RefsAppend(filtered, active[k]);
      assert active[k] !in Refs(filtered);
      if active[k].grant.expiresAt.None? || active[k].grant.expiresAt.value > at {
        filtered := filtered + [active[k]];
      }
    }
    assert Values(active)[..|active|] == Values(active) && active[..|active|] == active;
  }

  lemma {:induction false} RollStep(s: seq<Active>, k: nat, to: Time)
    requires k < |s|
    ensures var carried := Carry(s[k], to);
            Roll(s[..k + 1], to) == Roll(s[..k], to) + if carried.Some? then [carried.value] else []
  {
    assert s[..k + 1][..k] == s[..k];
  }

  /** Drop the spent and the expired, cap the rest at the rollover maximum. */
  method RollOver(active: seq<ActiveGrant>, to: Time) returns (rolled: seq<ActiveGrant>)
    requires NoRepeats(active)
    modifies Refs(active)
    ensures NoRepeats(rolled) && Refs(rolled) <= Refs(active)
    ensures Values(rolled) == Roll(old(Values(active)), to)
  {
    rolled := [];
    ghost var s := Values(active);
    for k := 0 to |active|
      invariant NoRepeats(rolled) && Refs(rolled) <= Refs(active[..k])
      invariant Values(rolled) == Roll(s[..k], to)
      invariant forall i :: k <= i < |active| ==> active[i].Value() == s[i]
    {
      ghost var kept := Values(rolled);
      RollStep(s, k, to);
      var ag := active[k];
      assert ag !in Refs(active[..k]);
      RefsTake(active, k);
      RefsAppend(rolled, ag);
      assert ag !in Refs(rolled);
      if ag.remaining != 0 && (ag.grant.expiresAt.None? || ag.grant.expiresAt.value > to) {
        if ag.grant.rolloverMax.Some? && ag.remaining > ag.grant.rolloverMax.value {
          ag.remaining := ag.grant.rolloverMax.value;
        }
        assert Values(rolled) == kept;
        if ag.remaining > 0 {
          rolled := rolled + [ag];
        }
      }
    }
    assert s[..|s|] == s && active[..|active|] == active;
  }

  /** The state at a boundary, listed in burn order. */
  method TakeSnapshot(active: seq<ActiveGrant>, asOf: Time) returns (snap: Snapshot)
    ensures snap == SnapshotOf(Values(active), asOf)
  {
    var states: seq<GrantState>, balance := [], 0;
    ghost var s := Values(active);
    for k := 0 to |active|
      invariant balance == Sum(s[..k])
      invariant states == StatesOf(s[..k])
    {
      assert s[..k + 1][..k] == s[..k];
      states := states + [GrantState(active[k].grant.id, active[k].remaining)];
      balance := balance + active[k].remaining;
    }
    assert s[..|s|] == s;
    snap := Snapshot(asOf, balance, states);
  }

  method LiveBalance(active: seq<ActiveGrant>, t: Time) returns (total: int)
    ensures total == LiveSum(Values(active), t)
  {
    total := 0;
    ghost var s := Values(active);
    for k := 0 to |active|
      invariant total == LiveSum(s[..k], t)
    {
      assert s[..k + 1][..k] == s[..k];
      if active[k].grant.expiresAt.None? || active[k].grant.expiresAt.value > t {
        total := total + active[k].remaining;
      }
    }
    assert s[..|s|] == s;
  }

  method TotalBalance(active: seq<ActiveGrant>) returns (total: int)
    ensures total == Sum(Values(active))
  {
    total := 0;
    ghost var s := Values(active);
    for k := 0 to |active|
      invariant total == Sum(s[..k])
    {
      assert s[..k + 1][..k] == s[..k];
      total := total + active[k].remaining;
    }
    assert s[..|s|] == s;
  }

  // ---- The two computations ----

  lemma {:induction false} SamePlaces(a: seq<ActiveGrant>, b: seq<ActiveGrant>)
    requires NoRepeats(a) && multiset(a) == multiset(b)
    ensures NoRepeats(b) && Refs(b) == Refs(a)
  {
    NoRepeatsPermutes(a, b);
    assert forall x :: x in b <==> x in multiset(b);
    assert forall x :: x in a <==> x in multiset(a);
  }

  /** `calculateStatelessBalance`. */
  method CalculateStatelessBalance(t: Time, grants: seq<Grant>, usage: int, ghost inp: Inputs)
    returns (result: BalanceResult)
    requires inp.grants == grants && inp.sort == StableSort
    ensures result == Stateless(inp, t, usage)
  {
    var active: seq<ActiveGrant> := [];
    for k := 0 to |grants|
      invariant NoRepeats(active) && fresh(Refs(active))
      invariant Values(active) == LiveGrants(grants[..k], t)
    {
      assert grants[..k + 1][..k] == grants[..k];
      var g := grants[k];
      if g.effectiveAt <= t && (g.expiresAt.None? || g.expiresAt.value > t) {
        var ag := new ActiveGrant(g, g.amount);
        RefsAppend(active, ag);
        active := active + [ag];
      }
    }
    assert grants[..|grants|] == grants;
    var sorted := SortActive(active);
    SamePlaces(active, sorted);
    var remainingUsage := BurnUsage(sorted, usage);
    var total := TotalBalance(sorted);
    result := BalanceResult(total > 0, total, usage, remainingUsage, None, None);
  }

  /** The part every period has: admit, prune, sort, fetch, burn. */
  method RunPeriod(active: seq<ActiveGrant>, seen: set<Id>, inp: Inputs, p: Period, first: bool, upTo: Time)
    returns (spent: seq<ActiveGrant>, marked: set<Id>, used: int, overage: int)
    requires NoRepeats(active) && inp.sort == StableSort
    modifies Refs(active)
    ensures NoRepeats(spent) && fresh(Refs(spent) - Refs(active))
    ensures (Values(spent), overage) == Spend(inp, old(State(Values(active), seen)), p, first, upTo)
    ensures marked == Open(inp, old(State(Values(active), seen)), p, first).seen
    ensures used == inp.usage(p.from, upTo)
  {
    hide Burn, StableSort, Prune, Admit;
    var grown, filtered;
    grown, marked := AdmitGrants(active, seen, inp.grants, p, first);
    filtered := PruneExpired(grown, p.from);
    spent := SortActive(filtered);
    SamePlaces(filtered, spent);
    used := inp.usage(p.from, upTo);
    overage := BurnUsage(spent, used);
  }

  /** Find the starting period and seed the active grants from the snapshot, if it lies on one. */
  method Begin(grants: seq<Grant>, periods: seq<Period>, seed: Option<Snapshot>)
    returns (startIdx: nat, active: seq<ActiveGrant>, seen: set<Id>)
    requires |periods| > 0
    ensures NoRepeats(active) && fresh(Refs(active))
    ensures (startIdx, State(Values(active), seen)) == Beginning(grants, periods, seed)
  {
    startIdx, active, seen := 0, [], {};
    if seed.Some? {
      var i := 0;
      while i < |periods| && periods[i].from != seed.value.asOf
        invariant i <= |periods|
        invariant FindStart(periods, seed.value.asOf, i) == FindStart(periods, seed.value.asOf, 0)
      {
        i := i + 1;
      }
      if i < |periods| {
        startIdx := i;
        active, seen := SeedActive(grants, seed.value.perGrant);
      }
    }
  }

  /** What the loop over periods has computed on coming to period `i`: the state and snapshots so
      far, or, past the last period, what the answer is made of. */
  ghost predicate FoldedTo(inp: Inputs, periods: seq<Period>, start: nat, st0: State, t: Time, i: nat, st: State,
                           used: int, overage: int, snaps: seq<Snapshot>)
    requires start < |periods| && start <= i <= |periods|
  {
    var last := |periods| - 1;
    if i <= last then
      st == StateAt(inp, periods, start, st0, i) && snaps == Captured(inp, periods, start, st0, i)
    else
      && (st.active, overage) == Current(inp, periods, start, st0, t)
      && snaps == Captured(inp, periods, start, st0, last) && used == inp.usage(periods[last].from, t)
  }

  /** One period before the current one, burned and rolled over. */
  lemma {:induction false} FoldsNext(inp: Inputs, periods: seq<Period>, start: nat, st0: State, t: Time, i: nat,
                                     st: State, used: int, overage: int, snaps: seq<Snapshot>,
                                     next: State, nextUsed: int, nextOverage: int)
    requires start <= i < |periods| - 1 && FoldedTo(inp, periods, start, st0, t, i, st, used, overage, snaps)
    requires var p := periods[i];
             next == State(Roll(Spend(inp, st, p, i == start, p.to).0, p.to), Open(inp, st, p, i == start).seen)
    ensures FoldedTo(inp, periods, start, st0, t, i + 1, next, nextUsed, nextOverage,
                     snaps + [SnapshotOf(next.active, periods[i].to)])
  {
    hide Spend, Open, Roll, SnapshotOf;
  }

  /** The current period, burned up to the instant. */
  lemma {:induction false} FoldsLast(inp: Inputs, periods: seq<Period>, start: nat, st0: State, t: Time, st: State,
                                     used: int, overage: int, snaps: seq<Snapshot>, next: State, nextOverage: int)
    requires start < |periods| && FoldedTo(inp, periods, start, st0, t, |periods| - 1, st, used, overage, snaps)
    requires var p := periods[|periods| - 1];
             (next.active, nextOverage) == Spend(inp, st, p, |periods| - 1 == start, t)
    ensures FoldedTo(inp, periods, start, st0, t, |periods|, next, inp.usage(periods[|periods| - 1].from, t),
                     nextOverage, snaps)
  {
    hide Spend;
  }

  lemma {:induction false} FoldsFrom(inp: Inputs, periods: seq<Period>, start: nat, st0: State, t: Time)
    requires start < |periods|
    ensures FoldedTo(inp, periods, start, st0, t, start, st0, 0, 0, [])
  {
  }

  lemma {:induction false} FoldAnswers(inp: Inputs, periods: seq<Period>, t: Time, seed: Option<Snapshot>, st: State,
                                       used: int, overage: int, snaps: seq<Snapshot>)
    requires |periods| > 0
    requires var (start, st0) := Beginning(inp.grants, periods, seed);
             FoldedTo(inp, periods, start, st0, t, |periods|, st, used, overage, snaps)
    ensures var total, p := LiveSum(st.active, t), periods[|periods| - 1];
            Periodic(inp, periods, t, seed)
            == (BalanceResult(total > 0, total, used, overage, Some(p), Some(p.from)), snaps)
  {
    hide Spend, StateAt, Captured, LiveSum;
  }

  /** The loop over periods, from the anchor or from the seed. */
  method FoldPeriods(t: Time, periods: seq<Period>, inp: Inputs, seed: Option<Snapshot>)
    returns (result: BalanceResult, newSnapshots: seq<Snapshot>)
    requires |periods| > 0 && inp.sort == StableSort
    ensures (result, newSnapshots) == Periodic(inp, periods, t, seed)
  {
    hide Spend, Open, Roll, SnapshotOf, LiveSum, StableSort, Beginning, Periodic, FoldedTo;
    var startIdx, active, seen := Begin(inp.grants, periods, seed);
    ghost var st0 := State(Values(active), seen);
    var used, overage := 0, 0;
    newSnapshots := [];
    FoldsFrom(inp, periods, startIdx, st0, t);
    for i := startIdx to |periods|
      invariant NoRepeats(active) && fresh(Refs(active))
      invariant FoldedTo(inp, periods, startIdx, st0, t, i, State(Values(active), seen), used, overage, newSnapshots)
    {
      var p := periods[i];
      var isCurrent := i == |periods| - 1;
      ghost var before, usedBefore, overageBefore, snaps := State(Values(active), seen), used, overage, newSnapshots;
      var endOfFetch := if isCurrent then t else p.to;
      active, seen, used, overage := RunPeriod(active, seen, inp, p, i == startIdx, endOfFetch);
      if !isCurrent {
        active := RollOver(active, p.to);
        var snap := TakeSnapshot(active, p.to);
        newSnapshots := newSnapshots + [snap];
        FoldsNext(inp, periods, startIdx, st0, t, i, before, usedBefore, overageBefore, snaps,
                  State(Values(active), seen), used, overage);
      } else {
        FoldsLast(inp, periods, startIdx, st0, t, before, usedBefore, overageBefore, snaps,
                  State(Values(active), seen), overage);
      }
    }
    FoldAnswers(inp, periods, t, seed, State(Values(active), seen), used, overage, newSnapshots);
    var total := LiveBalance(active, t);
    var p := periods[|periods| - 1];
    result := BalanceResult(total > 0, total, used, overage, Some(p), Some(p.from));
  }

  /** What the answer says of its period and usage. */
  lemma {:induction false} ReportsLast(inp: Inputs, periods: seq<Period>, t: Time, seed: Option<Snapshot>)
    requires |periods| > 0
    ensures var r, last := Periodic(inp, periods, t, seed).0, periods[|periods| - 1];
            r.period == Some(last) && r.lastReset == Some(last.from) && r.usage == inp.usage(last.from, t)
  {
    hide Beginning, Spend, StateAt, Captured;
  }

  /** `CalculateBalance`. Building periods always yields at least one, so the fallback
      for an empty list is never taken. */
  method CalculateBalance(t: Time, ent: Entitlement, grants: seq<Grant>, fetchUsage: Meter, seed: Option<Snapshot>)
    returns (result: BalanceResult, newSnapshots: seq<Snapshot>)
    requires WellTimed(ent)
    ensures (result, newSnapshots) == Calculate(Inputs(grants, fetchUsage, StableSort), ent, t, seed)
    ensures !ent.usagePeriod.Every? ==>
              && result.usage == fetchUsage(ent.createdAt, t)
              && result.period.None? && result.lastReset.None? && newSnapshots == []
    ensures ent.usagePeriod.Every? ==>
              && result.period.Some? && result.period.value.from <= t < result.period.value.to
              && result.lastReset == Some(result.period.value.from)
              && result.usage == fetchUsage(result.period.value.from, t)
  {
    var inp := Inputs(grants, fetchUsage, StableSort);
    if ent.usagePeriod.Every? {
      var d := ent.usagePeriod.duration;
      var periods := BuildPeriods(ent.Anchor(), d, t);
      PeriodsCoverInstant(Shifter(d, 1), Shifter(d, -1), ent.Anchor(), t);
      result, newSnapshots := FoldPeriods(t, periods, inp, seed);
      ReportsLast(inp, periods, t, seed);
    } else {
      result := CalculateStatelessBalance(t, grants, fetchUsage(ent.createdAt, t), inp);
      newSnapshots := [];
    }
  }
}
